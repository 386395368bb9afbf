/**
 The bound byte strings read back: a decoder that gives an operation's fields in their
 order, the text of each family's additional data written out, and what is refused.
 */
module CanonicalDecoding {
  import opened Options
  import opened Canonical

  // ---- Operation hashes ----

  /** The fields of a text that is nothing but fields preceded by their lengths. */
  function Split(t: string): Option<seq<string>>
    decreases |t|
  {
    if t == "" then Some([])
    else if |t| < 4 then None
    else
      var n := Value4(t[..4]);
      if n > |t| - 4 then None
      else
        var rest := Split(t[4 + n..]);
        if rest.None? then None else Some([t[4..4 + n]] + rest.value)
  }

  lemma {:induction false} SplitReads(fs: seq<string>)
    requires FieldsFit(fs)
    ensures Split(AllPrefixed(fs)) == Some(fs)
  {
    hide BigEndian, Value4;
    if fs != [] {
      var b, rest := fs[0], AllPrefixed(fs[1..]);
      SplitReads(fs[1..]);
      PrefixedReads(b, rest);
      assert AllPrefixed(fs) == Prefixed(b) + rest;
      assert fs == [b] + fs[1..];
    }
  }

  lemma PrefixedReads(b: string, rest: string)
    requires |b| < TWO32
    ensures var t := Prefixed(b) + rest;
            |t| >= 4 && Value4(t[..4]) == |b| && |b| <= |t| - 4 && t[4..4 + |b|] == b && t[4 + |b|..] == rest
  {
    hide BigEndian, Value4;
    assert |b| % TWO32 == |b|;
    Bytes(|b|);
    var t := Prefixed(b) + rest;
    assert t[..4] == Length(|b|);
  }

  /** An operation read from its encoding; both optional fields are there, or neither. */
  function Decoded(t: string): Option<Input> {
    var fs := Split(t);
    if fs.None? then None
    else
      var f := fs.value;
      if |f| == 6 then Some(Input(f[0], f[1], f[2], f[3], f[4], f[5], None, None, ""))
      else if |f| == 8 then Some(Input(f[0], f[1], f[2], f[3], f[4], f[5], Some(f[6]), Some(f[7]), ""))
      else if |f| == 9 && f[8] != "" then Some(Input(f[0], f[1], f[2], f[3], f[4], f[5], Some(f[6]), Some(f[7]), f[8]))
      else None
  }

  /**
   An operation's encoding decodes to its method, path, key, precondition, idempotency key
   and body, in that order, then its additional data and its envelope if any of the three
   optional fields is given, nil read as empty, and last its protocol.
   */
  lemma CanonicalDecodes(x: Input)
    requires FieldsFit(Fields(x))
    ensures Decoded(AppendCanonical("", x)).Some?
    ensures var y := Decoded(AppendCanonical("", x)).value;
            && y.httpMethod == x.httpMethod && y.path == x.path && y.keyId == x.keyId && y.ifMatch == x.ifMatch
            && y.idempotencyKey == x.idempotencyKey && y.body == x.body && y.protocol == x.protocol
            && (if x.aad.None? && x.envelope.None? && x.protocol == "" then y.aad.None? && y.envelope.None?
                else y.aad == Some(OrEmpty(x.aad)) && y.envelope == Some(OrEmpty(x.envelope)))
  {
    hide AllPrefixed, Split;
    SplitReads(Fields(x));
    assert AppendCanonical("", x) == AllPrefixed(Fields(x));
    assert |Fields(x)| == if Extended(x) then if x.protocol != "" then 9 else 8 else 6;
  }

  // ---- Additional data ----

  predicate IsPlain(c: char) { c != '"' && c != '\\' && c as int >= 0x20 }

  /** Text with nothing to escape is printed as it is. */
  lemma {:induction false} PlainQuoted(s: string)
    requires forall i :: 0 <= i < |s| ==> IsPlain(s[i])
    ensures Quoted(s) == "\"" + s + "\""
  {
    PlainEscaped(s);
  }

  lemma {:induction false} PlainEscaped(s: string)
    requires forall i :: 0 <= i < |s| ==> IsPlain(s[i])
    ensures EscapedAll(s) == s
  {
    if s != "" {
      var n := |s| - 1;
      PlainEscaped(s[..n]);
      assert IsPlain(s[n]);
      assert s == s[..n] + [s[n]];
    }
  }

  function Plain(s: string): string { "\"" + s + "\"" }

  function Member(key: string, value: string): string { Plain(key) + ":" + value }

  function Commas(ms: seq<string>): string {
    if ms == [] then "" else if |ms| == 1 then ms[0] else ms[0] + "," + Commas(ms[1..])
  }

  /** An object of printed members, none of its text space. */
  function Object(ms: seq<string>): string { "{" + Commas(ms) + "}" }

  predicate AllPlain(s: string) { forall i :: 0 <= i < |s| ==> IsPlain(s[i]) }

  lemma PlainMember(f: Field)
    requires AllPlain(f.key) && f.value.Str? && AllPlain(f.value.s)
    ensures FieldText(f) == Member(f.key, Plain(f.value.s))
  {
    hide Quoted, IsPlain;
    PlainQuoted(f.key);
    PlainQuoted(f.value.s);
  }

  lemma QuotedMember(f: Field)
    requires AllPlain(f.key)
    ensures FieldText(f) == Member(f.key, ValueText(f.value))
  {
    hide Quoted, IsPlain;
    PlainQuoted(f.key);
  }

  lemma {:induction false} CommasAre(fs: seq<Field>, ms: seq<string>)
    requires |fs| == |ms| > 0 && forall i :: 0 <= i < |fs| ==> FieldText(fs[i]) == ms[i]
    ensures FieldsText(fs) == Commas(ms)
  {
    hide FieldText;
    if |fs| > 1 {
      FieldsFirst(fs);
      CommasAre(fs[1..], ms[1..]);
    }
  }

  /** The keys and names that are printed as they are. */
  lemma LiteralsArePlain()
    ensures AllPlain("alg") && AllPlain("clerk_user_id") && AllPlain("domain") && AllPlain("id") && AllPlain("scope") && AllPlain("v")
    ensures AllPlain("kid") && AllPlain("credential_id") && AllPlain("key_id")
  {}

  lemma NamesArePlain()
    ensures AllPlain("AES-256-GCM") && AllPlain("tinfoil-sync-envelope-v2") && AllPlain("tinfoil-dek-wrap-v2") && AllPlain("tinfoil-key-bundle-v2")
  {}

  lemma ScopeIsPlain(s: Scope)
    ensures AllPlain(ScopeText(s))
  {}

  lemma KeyIdIsPlain(s: string)
    requires IsKeyId(s)
    ensures AllPlain(s)
  {}

  function PayloadMembers(a: Aad): seq<string> {
    [Member("alg", Plain("AES-256-GCM")), Member("clerk_user_id", Quoted(a.user)), Member("domain", Plain("tinfoil-sync-envelope-v2")),
     Member("id", Quoted(a.id)), Member("scope", Plain(ScopeText(a.scope))), Member("v", "2")]
  }

  /** The payload's data: a row without a user or an id, of an unknown scope, or a profile under another id than its own is refused. */
  lemma PayloadText(a: Aad)
    ensures PayloadAad(a).None? <==> a.scope.Unknown? || a.user == "" || a.id == "" || (a.scope.Profile? && a.id != "profile")
    ensures PayloadAad(a).Some? ==> PayloadAad(a).value == Object(PayloadMembers(a))
  {
    hide Quoted, FieldText, FieldsText, Commas, AllPlain, Plain, Member, ScopeText;
    LiteralsArePlain();
    NamesArePlain();
    ScopeIsPlain(a.scope);
    var fs := PayloadFields(a);
    PlainMember(fs[0]);
    QuotedMember(fs[1]);
    PlainMember(fs[2]);
    QuotedMember(fs[3]);
    PlainMember(fs[4]);
    QuotedMember(fs[5]);
    CommasAre(fs, PayloadMembers(a));
  }

  function WrapMembers(a: Aad): seq<string> {
    [Member("clerk_user_id", Quoted(a.user)), Member("domain", Plain("tinfoil-dek-wrap-v2")), Member("id", Quoted(a.id)),
     Member("kid", Plain(a.keyId)), Member("scope", Plain(ScopeText(a.scope))), Member("v", "2")]
  }

  /** The wrapped key's data: what the payload's refuses, and a key id that is not 32 lower-case hexadecimal digits. */
  lemma WrapText(a: Aad)
    ensures WrapAad(a).None? <==> a.scope.Unknown? || a.user == "" || a.id == "" || (a.scope.Profile? && a.id != "profile") || !IsKeyId(a.keyId)
    ensures WrapAad(a).Some? ==> WrapAad(a).value == Object(WrapMembers(a))
  {
    hide Quoted, FieldText, FieldsText, Commas, AllPlain, Plain, Member, ScopeText, IsKeyId;
    LiteralsArePlain();
    NamesArePlain();
    ScopeIsPlain(a.scope);
    var fs := WrapFields(a);
    if IsKeyId(a.keyId) {
      KeyIdIsPlain(a.keyId);
      QuotedMember(fs[0]);
      PlainMember(fs[1]);
      QuotedMember(fs[2]);
      PlainMember(fs[3]);
      PlainMember(fs[4]);
      QuotedMember(fs[5]);
      CommasAre(fs, WrapMembers(a));
    }
  }

  function BundleMembers(a: BundleAad): seq<string> {
    [Member("clerk_user_id", Quoted(a.user)), Member("credential_id", Quoted(a.credential)), Member("domain", Plain("tinfoil-key-bundle-v2")),
     Member("key_id", Plain(a.keyId))]
  }

  /** The key bundle's data: one without a user or a credential, or whose key id is not 32 lower-case hexadecimal digits, is refused. */
  lemma BundleText(a: BundleAad)
    ensures BundleAadText(a).None? <==> a.user == "" || a.credential == "" || !IsKeyId(a.keyId)
    ensures BundleAadText(a).Some? ==> BundleAadText(a).value == Object(BundleMembers(a))
  {
    hide Quoted, FieldText, FieldsText, Commas, AllPlain, Plain, Member, IsKeyId;
    LiteralsArePlain();
    NamesArePlain();
    var fs := BundleFields(a);
    if IsKeyId(a.keyId) {
      KeyIdIsPlain(a.keyId);
      QuotedMember(fs[0]);
      QuotedMember(fs[1]);
      PlainMember(fs[2]);
      PlainMember(fs[3]);
      CommasAre(fs, BundleMembers(a));
    }
  }

  // ---- Keys in order ----

  /** a sorts before b, byte by byte. */
  predicate Before(a: string, b: string) {
    b != "" && (a == "" || a[0] < b[0] || (a[0] == b[0] && Before(a[1..], b[1..])))
  }

  predicate Sorted(fs: seq<Field>) { forall i :: 0 < i < |fs| ==> Before(fs[i - 1].key, fs[i].key) }

  lemma DifferAt(a: string, b: string, n: nat)
    requires n < |a| && n < |b| && a[..n] == b[..n] && a[n] < b[n]
    ensures Before(a, b)
  {
    if n > 0 {
      assert a[0] == a[..n][0] && b[0] == b[..n][0];
      assert a[1..][..n - 1] == a[..n][1..] && b[1..][..n - 1] == b[..n][1..];
      DifferAt(a[1..], b[1..], n - 1);
    }
  }

  /** Each family's keys come in the order they sort in. */
  lemma KeysAreSorted(a: Aad, b: BundleAad)
    ensures Sorted(PayloadFields(a)) && Sorted(WrapFields(a)) && Sorted(BundleFields(b))
  {
    hide Before;
    DifferAt("alg", "clerk_user_id", 0);
    DifferAt("clerk_user_id", "domain", 0);
    DifferAt("domain", "id", 0);
    DifferAt("id", "scope", 0);
    DifferAt("scope", "v", 0);
    DifferAt("id", "kid", 0);
    DifferAt("kid", "scope", 0);
    DifferAt("clerk_user_id", "credential_id", 1);
    DifferAt("credential_id", "domain", 0);
    DifferAt("domain", "key_id", 0);
  }
}
