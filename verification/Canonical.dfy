/**
 The byte strings that seals and operation hashes bind (internal/seal/ophash.go and
 aad.go), and that each is made of one input only. Bytes are chars below 256.
 */
module Canonical {
  import opened Options

  // ---- Operation hashes: fields preceded by their lengths ----

  const TWO32: nat := 0x1_0000_0000

  function BigEndian(m: nat): string {
    var m1 := m / 256;
    var m2 := m1 / 256;
    [(m2 / 256 % 256) as char, (m2 % 256) as char, (m1 % 256) as char, (m % 256) as char]
  }

  /** A length as four bytes, the high byte first; a longer one wraps. */
  function Length(n: nat): string { BigEndian(n % TWO32) }

  function Prefixed(b: string): string { Length(|b|) + b }

  function AllPrefixed(fields: seq<string>): string {
    if fields == [] then "" else Prefixed(fields[0]) + AllPrefixed(fields[1..])
  }

  /** What an operation hash is computed over; a nil slice is None. */
  datatype Input = Input(
    httpMethod: string, path: string, keyId: string, ifMatch: string, idempotencyKey: string, body: string,
    aad: Option<string>, envelope: Option<string>, protocol: string)

  function OrEmpty(o: Option<string>): string { if o.Some? then o.value else "" }

  /** Whether the envelope and the additional data are encoded at all. */
  predicate Extended(x: Input) { x.aad.Some? || x.envelope.Some? || x.protocol != "" }

  function Fields(x: Input): seq<string> {
    [x.httpMethod, x.path, x.keyId, x.ifMatch, x.idempotencyKey, x.body]
    + (if Extended(x) then [OrEmpty(x.aad), OrEmpty(x.envelope)] else [])
    + (if x.protocol != "" then [x.protocol] else [])
  }

  function AppendCanonical(dst: string, x: Input): string { dst + AllPrefixed(Fields(x)) }

  predicate FieldsFit(fields: seq<string>) { forall i :: 0 <= i < |fields| ==> |fields[i]| < TWO32 }

  /** Two inputs that differ at most in nil against empty, in an encoding that has both fields. */
  predicate SameUpToNil(x: Input, y: Input) {
    && x.httpMethod == y.httpMethod && x.path == y.path && x.keyId == y.keyId && x.ifMatch == y.ifMatch
    && x.idempotencyKey == y.idempotencyKey && x.body == y.body && x.protocol == y.protocol
    && OrEmpty(x.aad) == OrEmpty(y.aad) && OrEmpty(x.envelope) == OrEmpty(y.envelope)
    && Extended(x) == Extended(y)
  }

  lemma LengthInjective(m: nat, n: nat)
    requires m < TWO32 && n < TWO32 && Length(m) == Length(n)
    ensures m == n
  {
    hide BigEndian;
    assert m % TWO32 == m && n % TWO32 == n;
    Bytes(m);
    Bytes(n);
  }

  function Value4(b: string): int
    requires |b| == 4
  {
    ((b[0] as int * 256 + b[1] as int) * 256 + b[2] as int) * 256 + b[3] as int
  }

  lemma Bytes(m: nat)
    requires m < TWO32
    ensures |BigEndian(m)| == 4 && Value4(BigEndian(m)) == m
  {
    var m1 := m / 256;
    var m2 := m1 / 256;
    assert m2 / 256 < 256;
    assert m2 / 256 % 256 == m2 / 256;
  }

  /** A field and what follows it are told apart. */
  lemma PrefixedInjective(a: string, b: string, x: string, y: string)
    requires |a| < TWO32 && |b| < TWO32 && Prefixed(a) + x == Prefixed(b) + y
    ensures a == b && x == y
  {
    var s, t := Prefixed(a) + x, Prefixed(b) + y;
    assert s[..4] == Length(|a|) && t[..4] == Length(|b|);
    LengthInjective(|a|, |b|);
    assert s[4..4 + |a|] == a && t[4..4 + |b|] == b;
    assert s[4 + |a|..] == x && t[4 + |b|..] == y;
  }

  lemma {:induction false} AllPrefixedInjective(fs: seq<string>, gs: seq<string>)
    requires FieldsFit(fs) && FieldsFit(gs) && AllPrefixed(fs) == AllPrefixed(gs)
    ensures fs == gs
  {
    if fs != [] && gs != [] {
      PrefixedInjective(fs[0], gs[0], AllPrefixed(fs[1..]), AllPrefixed(gs[1..]));
      AllPrefixedInjective(fs[1..], gs[1..]);
      assert fs == [fs[0]] + fs[1..] && gs == [gs[0]] + gs[1..];
    } else {
      PrefixedLonger(fs);
      PrefixedLonger(gs);
    }
  }

  lemma PrefixedLonger(fs: seq<string>)
    ensures AllPrefixed(fs) == "" <==> fs == []
  {}

  /** Six, eight and nine fields are the only forms, and the form and the fields give the input back. */
  lemma FieldsInjective(x: Input, y: Input)
    requires Fields(x) == Fields(y)
    ensures SameUpToNil(x, y)
  {
    var fs, gs := Fields(x), Fields(y);
    assert |fs| == (if Extended(x) then if x.protocol != "" then 9 else 8 else 6);
    assert |gs| == (if Extended(y) then if y.protocol != "" then 9 else 8 else 6);
    assert fs[0] == gs[0] && fs[1] == gs[1] && fs[2] == gs[2] && fs[3] == gs[3] && fs[4] == gs[4] && fs[5] == gs[5];
    if |fs| >= 8 { assert fs[6] == gs[6] && fs[7] == gs[7]; }
    if |fs| == 9 { assert fs[8] == gs[8]; }
  }

  /** Inputs have one encoding exactly when they are the same up to nil against empty. */
  lemma CanonicalInjective(x: Input, y: Input)
    requires FieldsFit(Fields(x)) && FieldsFit(Fields(y))
    ensures AppendCanonical("", x) == AppendCanonical("", y) <==> SameUpToNil(x, y)
  {
    hide Fields, AllPrefixed, FieldsFit, SameUpToNil;
    assert AppendCanonical("", x) == AllPrefixed(Fields(x)) && AppendCanonical("", y) == AllPrefixed(Fields(y));
    if AppendCanonical("", x) == AppendCanonical("", y) {
      AllPrefixedInjective(Fields(x), Fields(y));
      FieldsInjective(x, y);
    }
    if SameUpToNil(x, y) { SameFields(x, y); }
  }

  lemma SameFields(x: Input, y: Input)
    requires SameUpToNil(x, y)
    ensures Fields(x) == Fields(y)
  {}

  // ---- Additional data: JSON with sorted keys ----

  function HexDigit(n: int): char
    requires 0 <= n < 16
  {
    if n < 10 then ('0' as int + n) as char else ('a' as int + n - 10) as char
  }

  const BACKSPACE := 8 as char
  const FORM_FEED := 12 as char

  /** A byte as it is written in a JSON string. */
  function Escaped(c: char): string {
    if c == '"' then "\\\""
    else if c == '\\' then "\\\\"
    else if c == '\n' then "\\n"
    else if c == '\r' then "\\r"
    else if c == '\t' then "\\t"
    else if c == BACKSPACE then "\\b"
    else if c == FORM_FEED then "\\f"
    else if (c as int) < 0x20 then "\\u00" + [HexDigit(c as int / 16), HexDigit(c as int % 16)]
    else [c]
  }

  function EscapedAll(s: string): string {
    if s == "" then "" else EscapedAll(s[..|s| - 1]) + Escaped(s[|s| - 1])
  }

  function Quoted(s: string): string { "\"" + EscapedAll(s) + "\"" }

  method WriteEscaped(buf: string, c: char) returns (out: string)
    ensures out == buf + Escaped(c)
  {
    match c
    case '"' => out := buf + "\\\"";
    case '\\' => out := buf + "\\\\";
    case '\n' => out := buf + "\\n";
    case '\r' => out := buf + "\\r";
    case '\t' => out := buf + "\\t";
    case _ =>
      if c == BACKSPACE { out := buf + "\\b"; }
      else if c == FORM_FEED { out := buf + "\\f"; }
      else if (c as int) < 0x20 { out := buf + ("\\u00" + [HexDigit(c as int / 16), HexDigit(c as int % 16)]); }
      else { out := buf + [c]; }
  }

  method WriteJSONString(buf: string, s: string) returns (out: string)
    ensures out == buf + Quoted(s)
  {
    hide Escaped;
    out := buf + "\"";
    for i := 0 to |s|
      invariant out == buf + "\"" + EscapedAll(s[..i])
    {
      assert s[..i + 1][..i] == s[..i];
      out := WriteEscaped(out, s[i]);
    }
    assert s[..|s|] == s;
    out := out + "\"";
  }

  // ---- Reading a string back, as section 7 of RFC 8259 has it ----

  function HexValue(c: char): int { if '0' <= c <= '9' then c as int - '0' as int else c as int - 'a' as int + 10 }

  /** How long the first character of a string's text is. */
  function CharLength(t: string): nat
    requires |t| > 0
  {
    if t[0] != '\\' then 1 else if |t| > 1 && t[1] == 'u' then 6 else 2
  }

  /** The character a text of its own length stands for. */
  function CharValue(t: string): char
    requires |t| > 0 && CharLength(t) <= |t|
  {
    if t[0] != '\\' then t[0]
    else if t[1] == 'u' then
      var v := HexValue(t[4]) * 16 + HexValue(t[5]);
      if 0 <= v < 256 then v as char else '?'
    else if t[1] == 'n' then '\n'
    else if t[1] == 'r' then '\r'
    else if t[1] == 't' then '\t'
    else if t[1] == 'b' then BACKSPACE
    else if t[1] == 'f' then FORM_FEED
    else t[1]
  }

  lemma EscapedReads(c: char, rest: string)
    ensures var t := Escaped(c) + rest;
            && |Escaped(c)| >= 1 && t[0] != '"' && CharLength(t) == |Escaped(c)| && CharValue(t) == c && t[|Escaped(c)|..] == rest
  {
    var t := Escaped(c) + rest;
    assert t[..|Escaped(c)|] == Escaped(c) && t[|Escaped(c)|..] == rest;
    if (c as int) < 0x20 {
      assert HexValue(HexDigit(c as int / 16)) == c as int / 16;
      assert HexValue(HexDigit(c as int % 16)) == c as int % 16;
      assert (c as int / 16) * 16 + c as int % 16 == c as int;
    }
  }

  /** Escaped from the front. */
  lemma {:induction false} EscapedFirst(s: string)
    requires s != ""
    ensures EscapedAll(s) == Escaped(s[0]) + EscapedAll(s[1..])
  {
    hide Escaped;
    if |s| > 1 {
      var n := |s| - 1;
      EscapedFirst(s[..n]);
      assert s[..n][1..] == s[1..][..n - 1];
      assert s[..n][0] == s[0] && s[1..][n - 1] == s[n];
    } else {
      assert s[..0] == "" && s[1..] == "";
    }
  }

  /** The text of a string up to its closing quote, and what follows. */
  function Body(s: string, rest: string): string { EscapedAll(s) + "\"" + rest }

  /** A closing quote is first only when nothing is left of the string. */
  lemma BodyFirst(s: string, rest: string)
    ensures |Body(s, rest)| > 0 && (Body(s, rest)[0] == '"' <==> s == "")
    ensures s == "" ==> Body(s, rest)[1..] == rest
    ensures s != "" ==> Body(s, rest) == Escaped(s[0]) + Body(s[1..], rest)
  {
    hide Escaped, CharLength, CharValue;
    if s != "" {
      EscapedFirst(s);
      assert Body(s, rest) == Escaped(s[0]) + Body(s[1..], rest);
      EscapedReads(s[0], Body(s[1..], rest));
    }
  }

  /** A string's text ends where its closing quote is, whatever follows. */
  lemma {:induction false} QuotedInjective(a: string, b: string, x: string, y: string)
    requires Body(a, x) == Body(b, y)
    ensures a == b && x == y
    decreases |a| + |b|
  {
    hide Escaped, Body, CharLength, CharValue;
    BodyFirst(a, x);
    BodyFirst(b, y);
    if a != "" && b != "" {
      EscapedReads(a[0], Body(a[1..], x));
      EscapedReads(b[0], Body(b[1..], y));
      QuotedInjective(a[1..], b[1..], x, y);
      assert a == [a[0]] + a[1..] && b == [b[0]] + b[1..];
    }
  }

  lemma QuotedBody(s: string, rest: string)
    ensures Quoted(s) + rest == "\"" + Body(s, rest) && (Quoted(s) + rest)[0] == '"' && (Quoted(s) + rest)[1..] == Body(s, rest)
  {
    hide EscapedAll;
  }

  // ---- Objects ----

  datatype Value = Str(s: string) | Num(digits: string)

  predicate ValueOk(v: Value) { v.Num? ==> |v.digits| > 0 && forall i :: 0 <= i < |v.digits| ==> '0' <= v.digits[i] <= '9' }

  function ValueText(v: Value): string { if v.Str? then Quoted(v.s) else v.digits }

  datatype Field = Field(key: string, value: Value)

  function FieldText(f: Field): string { Quoted(f.key) + ":" + ValueText(f.value) }

  function FieldsText(fs: seq<Field>): string {
    if fs == [] then ""
    else if |fs| == 1 then FieldText(fs[0])
    else FieldsText(fs[..|fs| - 1]) + "," + FieldText(fs[|fs| - 1])
  }

  /** What follows the first field of an object, its closing brace included. */
  function Rest(fs: seq<Field>): string
    requires |fs| > 0
  {
    if |fs| == 1 then "}" else "," + FieldsText(fs[1..]) + "}"
  }

  lemma {:induction false} FieldsFirst(fs: seq<Field>)
    requires |fs| > 1
    ensures FieldsText(fs) == FieldText(fs[0]) + "," + FieldsText(fs[1..])
  {
    hide FieldText;
    var n := |fs| - 1;
    if n > 1 {
      FieldsFirst(fs[..n]);
      assert fs[..n][1..] == fs[1..][..n - 1];
    } else {
      assert fs[..1] == [fs[0]] && fs[1..] == [fs[1]];
    }
  }

  lemma FieldsRest(fs: seq<Field>)
    requires |fs| > 0
    ensures FieldsText(fs) + "}" == FieldText(fs[0]) + Rest(fs) && Ends(Rest(fs))
  {
    hide FieldText;
    if |fs| > 1 {
      FieldsFirst(fs);
      Regroup(FieldText(fs[0]), ",", FieldsText(fs[1..]), "}");
    }
  }

  lemma Regroup(a: string, b: string, c: string, d: string)
    ensures a + b + c + d == a + (b + c + d)
  {}

  function Marshalled(fs: seq<Field>): string { "{" + FieldsText(fs) + "}" }

  predicate AllOk(fs: seq<Field>) { forall i :: 0 <= i < |fs| ==> ValueOk(fs[i].value) }

  /** Digits are told apart from what follows them. */
  lemma DigitsEnd(a: string, b: string, x: string, y: string)
    requires ValueOk(Num(a)) && ValueOk(Num(b)) && a + x == b + y
    requires |x| > 0 && |y| > 0 && !('0' <= x[0] <= '9') && !('0' <= y[0] <= '9')
    ensures a == b && x == y
  {
    var t := a + x;
    DigitsNotShorter(a, b, x, y);
    DigitsNotShorter(b, a, y, x);
    assert t[..|a|] == a && t[|a|..] == x && t[..|b|] == b && t[|b|..] == y;
  }

  lemma DigitsNotShorter(a: string, b: string, x: string, y: string)
    requires ValueOk(Num(b)) && a + x == b + y && |x| > 0 && !('0' <= x[0] <= '9')
    ensures |a| >= |b|
  {
    assert (a + x)[|a|] == x[0];
    assert forall i :: 0 <= i < |b| ==> (b + y)[i] == b[i];
  }

  /** What may follow a value. */
  predicate Ends(x: string) { |x| > 0 && (x[0] == ',' || x[0] == '}') }

  lemma ValueInjective(v: Value, w: Value, x: string, y: string)
    requires ValueOk(v) && ValueOk(w) && Ends(x) && Ends(y) && ValueText(v) + x == ValueText(w) + y
    ensures v == w && x == y
  {
    hide EscapedAll, Body;
    if v.Str? { QuotedBody(v.s, x); }
    if w.Str? { QuotedBody(w.s, y); }
    assert v.Num? ==> (ValueText(v) + x)[0] == v.digits[0];
    assert w.Num? ==> (ValueText(w) + y)[0] == w.digits[0];
    if v.Str? && w.Str? {
      QuotedInjective(v.s, w.s, x, y);
    } else if v.Num? && w.Num? {
      DigitsEnd(v.digits, w.digits, x, y);
    }
  }

  lemma FieldInjective(f: Field, g: Field, x: string, y: string)
    requires ValueOk(f.value) && ValueOk(g.value) && Ends(x) && Ends(y) && FieldText(f) + x == FieldText(g) + y
    ensures f == g && x == y
  {
    hide ValueOk, EscapedAll, ValueText, Body, Quoted;
    var p, q := ":" + ValueText(f.value) + x, ":" + ValueText(g.value) + y;
    assert FieldText(f) + x == Quoted(f.key) + p && FieldText(g) + y == Quoted(g.key) + q;
    QuotedBody(f.key, p);
    QuotedBody(g.key, q);
    QuotedInjective(f.key, g.key, p, q);
    assert p[1..] == ValueText(f.value) + x && q[1..] == ValueText(g.value) + y;
    ValueInjective(f.value, g.value, x, y);
  }

  lemma {:induction false} FieldsTextInjective(fs: seq<Field>, gs: seq<Field>)
    requires AllOk(fs) && AllOk(gs) && |fs| > 0 && |gs| > 0 && FieldsText(fs) + "}" == FieldsText(gs) + "}"
    ensures fs == gs
    decreases |fs| + |gs|
  {
    hide ValueOk, FieldText, FieldsText;
    FieldsRest(fs);
    FieldsRest(gs);
    FieldInjective(fs[0], gs[0], Rest(fs), Rest(gs));
    if |fs| > 1 && |gs| > 1 {
      assert Rest(fs)[1..] == FieldsText(fs[1..]) + "}" && Rest(gs)[1..] == FieldsText(gs[1..]) + "}";
      FieldsTextInjective(fs[1..], gs[1..]);
    }
    assert fs == [fs[0]] + fs[1..] && gs == [gs[0]] + gs[1..];
  }

  lemma MarshalInjective(fs: seq<Field>, gs: seq<Field>)
    requires AllOk(fs) && AllOk(gs) && |fs| > 0 && |gs| > 0 && Marshalled(fs) == Marshalled(gs)
    ensures fs == gs
  {
    hide FieldsText;
    assert Marshalled(fs)[1..] == FieldsText(fs) + "}" && Marshalled(gs)[1..] == FieldsText(gs) + "}";
    FieldsTextInjective(fs, gs);
  }

  method WriteField(buf: string, f: Field) returns (out: string)
    ensures out == buf + FieldText(f)
  {
    hide Quoted;
    out := WriteJSONString(buf, f.key);
    out := out + ":";
    if f.value.Str? {
      out := WriteJSONString(out, f.value.s);
    } else {
      out := out + f.value.digits;
    }
  }

  method MarshalCanonical(fields: seq<Field>) returns (buf: string)
    ensures buf == Marshalled(fields)
  {
    hide FieldText;
    buf := "{";
    for i := 0 to |fields|
      invariant buf == "{" + FieldsText(fields[..i])
    {
      assert fields[..i + 1][..i] == fields[..i];
      if i > 0 { buf := buf + ","; }
      buf := WriteField(buf, fields[i]);
    }
    assert fields[..|fields|] == fields;
    buf := buf + "}";
  }

  // ---- The three families ----

  datatype Scope = Chat | Profile | Project | ProjectDocument | Unknown

  function ScopeText(s: Scope): string {
    match s
    case Chat => "chat"
    case Profile => "profile"
    case Project => "project"
    case ProjectDocument => "project_document"
    case Unknown => ""
  }

  const PROFILE_ID := "profile"

  datatype Aad = Aad(keyId: string, scope: Scope, id: string, user: string)

  datatype BundleAad = BundleAad(user: string, keyId: string, credential: string)

  predicate IsKeyId(s: string) {
    |s| == 32 && forall i :: 0 <= i < |s| ==> '0' <= s[i] <= '9' || 'a' <= s[i] <= 'f'
  }

  predicate RowOk(a: Aad) {
    !a.scope.Unknown? && a.user != "" && (a.scope.Profile? ==> a.id == PROFILE_ID) && a.id != ""
  }

  function PayloadFields(a: Aad): seq<Field> {
    [Field("alg", Str("AES-256-GCM")), Field("clerk_user_id", Str(a.user)), Field("domain", Str("tinfoil-sync-envelope-v2")),
     Field("id", Str(a.id)), Field("scope", Str(ScopeText(a.scope))), Field("v", Num("2"))]
  }

  function WrapFields(a: Aad): seq<Field> {
    [Field("clerk_user_id", Str(a.user)), Field("domain", Str("tinfoil-dek-wrap-v2")), Field("id", Str(a.id)),
     Field("kid", Str(a.keyId)), Field("scope", Str(ScopeText(a.scope))), Field("v", Num("2"))]
  }

  function BundleFields(a: BundleAad): seq<Field> {
    [Field("clerk_user_id", Str(a.user)), Field("credential_id", Str(a.credential)), Field("domain", Str("tinfoil-key-bundle-v2")),
     Field("key_id", Str(a.keyId))]
  }

  function PayloadAad(a: Aad): Option<string> { if RowOk(a) then Some(Marshalled(PayloadFields(a))) else None }

  function WrapAad(a: Aad): Option<string> { if RowOk(a) && IsKeyId(a.keyId) then Some(Marshalled(WrapFields(a))) else None }

  function BundleAadText(a: BundleAad): Option<string> {
    if a.user != "" && a.credential != "" && IsKeyId(a.keyId) then Some(Marshalled(BundleFields(a))) else None
  }

  lemma ScopeInjective(a: Scope, b: Scope)
    requires ScopeText(a) == ScopeText(b)
    ensures a == b
  {
    assert |ScopeText(Chat)| == 4 && |ScopeText(Profile)| == 7 && |ScopeText(Project)| == 7 && |ScopeText(ProjectDocument)| == 16;
    assert ScopeText(Profile)[4] == 'i' && ScopeText(Project)[4] == 'e';
  }

  /** The payload's additional data binds its user, row and scope, and no key. */
  lemma PayloadInjective(a: Aad, b: Aad)
    requires PayloadAad(a).Some? && PayloadAad(b).Some?
    ensures PayloadAad(a) == PayloadAad(b) <==> a.user == b.user && a.id == b.id && a.scope == b.scope
  {
    hide Marshalled;
    if PayloadAad(a) == PayloadAad(b) {
      var fs, gs := PayloadFields(a), PayloadFields(b);
      MarshalInjective(fs, gs);
      assert fs[1] == gs[1] && fs[3] == gs[3] && fs[4] == gs[4];
      ScopeInjective(a.scope, b.scope);
    }
  }

  /** The wrapped key's binds its user, row, scope and key. */
  lemma WrapInjective(a: Aad, b: Aad)
    requires WrapAad(a).Some? && WrapAad(b).Some?
    ensures WrapAad(a) == WrapAad(b) <==> a == b
  {
    hide Marshalled;
    if WrapAad(a) == WrapAad(b) {
      var fs, gs := WrapFields(a), WrapFields(b);
      MarshalInjective(fs, gs);
      assert fs[0] == gs[0] && fs[2] == gs[2] && fs[3] == gs[3] && fs[4] == gs[4];
      ScopeInjective(a.scope, b.scope);
    }
  }

  lemma BundleInjective(a: BundleAad, b: BundleAad)
    requires BundleAadText(a).Some? && BundleAadText(b).Some?
    ensures BundleAadText(a) == BundleAadText(b) <==> a == b
  {
    hide Marshalled;
    if BundleAadText(a) == BundleAadText(b) {
      var fs, gs := BundleFields(a), BundleFields(b);
      MarshalInjective(fs, gs);
      assert fs[0] == gs[0] && fs[1] == gs[1] && fs[3] == gs[3];
    }
  }

  /** No byte string is the additional data of two families. */
  lemma FamiliesDisjoint(a: Aad, b: Aad, c: BundleAad)
    ensures PayloadAad(a).Some? ==> PayloadAad(a) != WrapAad(b) && PayloadAad(a) != BundleAadText(c)
    ensures WrapAad(b).Some? ==> WrapAad(b) != BundleAadText(c)
  {
    hide Marshalled, RowOk, IsKeyId;
    if PayloadAad(a).Some? && PayloadAad(a) == WrapAad(b) {
      MarshalInjective(PayloadFields(a), WrapFields(b));
      FirstField(PayloadFields(a), WrapFields(b));
    }
    if PayloadAad(a).Some? && PayloadAad(a) == BundleAadText(c) {
      MarshalInjective(PayloadFields(a), BundleFields(c));
      FirstField(PayloadFields(a), BundleFields(c));
    }
    if WrapAad(b).Some? && WrapAad(b) == BundleAadText(c) {
      MarshalInjective(WrapFields(b), BundleFields(c));
    }
  }

  lemma FirstField(fs: seq<Field>, gs: seq<Field>)
    requires fs == gs && |fs| > 0
    ensures |fs[0].key| == |gs[0].key|
  {}
}
