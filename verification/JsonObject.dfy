/**
 The leading object of a tool call's arguments (internal/domain/quirks.go), against the
 grammar of JSON texts in sections 2 to 7 of RFC 8259. Texts are bytes of UTF-8, a byte
 to a char.
 */
module JsonObject {
  import opened Options

  // ---- The grammar ----

  predicate IsWs(c: char) { c == ' ' || c == '\t' || c == '\n' || c == '\r' }

  predicate IsHex(c: char) { '0' <= c <= '9' || 'a' <= c <= 'f' || 'A' <= c <= 'F' }

  /** A character of a string: unescaped, escaped by one character, or by four hexadecimal digits. */
  datatype Item = Plain(c: char) | Escape(c: char) | Unicode(hex: string)

  predicate ItemOk(i: Item) {
    match i
    case Plain(c) => c >= ' ' && c != '"' && c != '\\'
    case Escape(c) => c in "\"\\/bfnrt"
    case Unicode(hex) => |hex| == 4 && forall k :: 0 <= k < 4 ==> IsHex(hex[k])
  }

  function ItemText(i: Item): string {
    match i
    case Plain(c) => [c]
    case Escape(c) => ['\\', c]
    case Unicode(hex) => "\\u" + hex
  }

  function ItemsText(items: seq<Item>): string {
    if items == [] then "" else ItemText(items[0]) + ItemsText(items[1..])
  }

  predicate ItemsOk(items: seq<Item>) { forall i :: 0 <= i < |items| ==> ItemOk(items[i]) }

  function StringText(items: seq<Item>): string { "\"" + ItemsText(items) + "\"" }

  /** Whitespace is kept, so that a tree stands for one text. A literal is a number, true, false or null. */
  datatype Value =
    | Literal(text: string)
    | Text(items: seq<Item>)
    | Array(ws: string, elements: seq<Element>)
    | Object(ws: string, members: seq<Member>)

  datatype Element = Element(before: string, value: Value, after: string)

  datatype Member = Member(before: string, name: seq<Item>, after: string, element: Element)

  predicate WsOk(ws: string) { forall i :: 0 <= i < |ws| ==> IsWs(ws[i]) }

  predicate IsDigits(s: string) { |s| > 0 && forall i :: 0 <= i < |s| ==> '0' <= s[i] <= '9' }

  /** A number: an optional minus, an integer part without a leading zero, a fraction and an exponent. */
  ghost predicate IsNumber(s: string) {
    exists minus: string, whole: string, frac: string, exp: string :: IsNumberOf(s, minus, whole, frac, exp)
  }

  predicate IsNumberOf(s: string, minus: string, whole: string, frac: string, exp: string) {
    && s == minus + whole + frac + exp
    && (minus == "" || minus == "-")
    && IsDigits(whole) && (whole[0] == '0' ==> |whole| == 1)
    && (frac == "" || (frac[0] == '.' && IsDigits(frac[1..])))
    && (exp == "" || IsExponent(exp))
  }

  predicate IsExponent(s: string) {
    |s| > 0 && (s[0] == 'e' || s[0] == 'E') && (IsDigits(s[1..]) || (|s| > 1 && (s[1] == '+' || s[1] == '-') && IsDigits(s[2..])))
  }

  ghost predicate ValueOk(v: Value) {
    match v
    case Literal(text) => text == "true" || text == "false" || text == "null" || IsNumber(text)
    case Text(items) => ItemsOk(items)
    case Array(ws, elements) =>
      WsOk(ws) && (ws != "" ==> elements == []) && forall i :: 0 <= i < |elements| ==> ElementOk(elements[i])
    case Object(ws, members) =>
      WsOk(ws) && (ws != "" ==> members == []) && forall i :: 0 <= i < |members| ==> MemberOk(members[i])
  }

  ghost predicate ElementOk(e: Element) { WsOk(e.before) && WsOk(e.after) && ValueOk(e.value) }

  ghost predicate MemberOk(m: Member) { WsOk(m.before) && ItemsOk(m.name) && WsOk(m.after) && ElementOk(m.element) }

  function ValueText(v: Value): string {
    match v
    case Literal(text) => text
    case Text(items) => StringText(items)
    case Array(ws, elements) => "[" + (ws + ElementsText(elements)) + "]"
    case Object(ws, members) => "{" + (ws + MembersText(members)) + "}"
  }

  function ElementText(e: Element): string { e.before + (ValueText(e.value) + e.after) }

  function MemberText(m: Member): string {
    m.before + (StringText(m.name) + (m.after + (":" + ElementText(m.element))))
  }

  function ElementsText(es: seq<Element>): string {
    if es == [] then "" else if |es| == 1 then ElementText(es[0]) else ElementText(es[0]) + ("," + ElementsText(es[1..]))
  }

  function MembersText(ms: seq<Member>): string {
    if ms == [] then "" else if |ms| == 1 then MemberText(ms[0]) else MemberText(ms[0]) + ("," + MembersText(ms[1..]))
  }

  // ---- The scanner ----

  datatype Scan = Scan(depth: int, inString: bool, escaped: bool)

  function Stepped(st: Scan, c: char): Scan {
    if st.escaped then st.(escaped := false)
    else if st.inString then st.(escaped := c == '\\', inString := c != '"')
    else if c == '"' then st.(inString := true)
    else if c == '{' then st.(depth := st.depth + 1)
    else if c == '}' then st.(depth := st.depth - 1)
    else st
  }

  /** The character closes an object. */
  predicate Closes(st: Scan, c: char) { !st.escaped && !st.inString && c == '}' }

  /** Where the scan from i ends the first object, if it does. */
  function End(s: string, i: nat, st: Scan): Option<nat>
    requires i <= |s|
    decreases |s| - i
  {
    if i == |s| then None
    else
      var next := Stepped(st, s[i]);
      if Closes(st, s[i]) && next.depth == 0 then Some(i + 1)
      else if Closes(st, s[i]) && next.depth < 0 then None
      else End(s, i + 1, next)
  }

  const BEGIN := Scan(0, false, false)

  function Extracted(s: string): Option<string> {
    if |s| == 0 || s[0] != '{' then None
    else
      var end := End(s, 0, BEGIN);
      if end.Some? && end.value <= |s| then Some(s[..end.value]) else None
  }

  method ExtractFirstJSONObject(s: string) returns (r: Option<string>)
    ensures r == Extracted(s)
  {
    if |s| == 0 || s[0] != '{' { return None; }
    var depth, inString, escaped := 0, false, false;
    for i := 0 to |s|
      invariant if i == 0 then depth == 0 && !inString && !escaped else depth >= 1
      invariant End(s, i, Scan(depth, inString, escaped)) == End(s, 0, BEGIN)
    {
      var c := s[i];
      if escaped {
        escaped := false;
      } else if inString {
        escaped, inString := c == '\\', c != '"';
      } else if c == '"' {
        inString := true;
      } else if c == '{' {
        depth := depth + 1;
      } else if c == '}' {
        depth := depth - 1;
        if depth == 0 { return Some(s[..i + 1]); }
        if depth < 0 {
          // Unreachable: what closes below the first object has ended it before.
          assert false;
        }
      }
    }
    return None;
  }

  // ---- What the scanner passes over ----

  /** Scanning t from one state leads to another and closes nothing at depth 1 or below. */
  ghost predicate Passes(st: Scan, t: string, st': Scan)
    decreases |t|
  {
    if t == "" then st' == st
    else (Closes(st, t[0]) ==> st.depth > 1) && Passes(Stepped(st, t[0]), t[1..], st')
  }

  lemma {:induction false} PassesBoth(a: Scan, t: string, b: Scan, u: string, c: Scan)
    requires Passes(a, t, b) && Passes(b, u, c)
    ensures Passes(a, t + u, c)
    decreases |t|
  {
    if t == "" {
      assert t + u == u;
    } else {
      assert (t + u)[1..] == t[1..] + u;
      PassesBoth(Stepped(a, t[0]), t[1..], b, u, c);
    }
  }

  /** The scan goes on after what it passes over. */
  lemma {:induction false} EndAfter(s: string, i: nat, t: string, st: Scan, st': Scan)
    requires i + |t| <= |s| && s[i..i + |t|] == t && Passes(st, t, st')
    ensures End(s, i, st) == End(s, i + |t|, st')
    decreases |t|
  {
    if t != "" {
      assert s[i] == t[0];
      assert s[i + 1..i + 1 + |t[1..]|] == t[1..];
      EndAfter(s, i + 1, t[1..], Stepped(st, s[i]), st');
    }
  }

  function Outside(depth: int): Scan { Scan(depth, false, false) }

  function Inside(depth: int): Scan { Scan(depth, true, false) }

  /** Characters that mean nothing to the scanner outside a string. */
  ghost predicate IsDull(t: string) {
    forall i :: 0 <= i < |t| ==> t[i] != '"' && t[i] != '{' && t[i] != '}'
  }

  lemma {:induction false} DullPasses(t: string, depth: int)
    requires IsDull(t)
    ensures Passes(Outside(depth), t, Outside(depth))
  {
    if t != "" {
      DullPasses(t[1..], depth);
    }
  }

  lemma ItemPasses(i: Item, depth: int)
    requires ItemOk(i)
    ensures Passes(Inside(depth), ItemText(i), Inside(depth))
  {
    match i
    case Plain(c) => PassesOne(Inside(depth), c);
    case Escape(c) =>
      PassesOne(Inside(depth), '\\');
      PassesOne(Scan(depth, true, true), c);
      PassesBoth(Inside(depth), ['\\'], Scan(depth, true, true), [c], Inside(depth));
      assert ['\\', c] == ['\\'] + [c];
    case Unicode(hex) =>
      PassesOne(Inside(depth), '\\');
      PassesOne(Scan(depth, true, true), 'u');
      PassesBoth(Inside(depth), ['\\'], Scan(depth, true, true), ['u'], Inside(depth));
      HexPasses(hex, depth);
      assert "\\u" == ['\\'] + ['u'];
      PassesBoth(Inside(depth), "\\u", Inside(depth), hex, Inside(depth));
  }

  lemma {:induction false} HexPasses(hex: string, depth: int)
    requires forall k :: 0 <= k < |hex| ==> IsHex(hex[k])
    ensures Passes(Inside(depth), hex, Inside(depth))
  {
    if hex != "" {
      HexPasses(hex[1..], depth);
    }
  }

  lemma PassesOne(st: Scan, c: char)
    requires Closes(st, c) ==> st.depth > 1
    ensures Passes(st, [c], Stepped(st, c))
  {
    assert [c][1..] == "";
  }

  lemma {:induction false} ItemsPass(items: seq<Item>, depth: int)
    requires ItemsOk(items)
    ensures Passes(Inside(depth), ItemsText(items), Inside(depth))
  {
    if items != [] {
      ItemPasses(items[0], depth);
      ItemsPass(items[1..], depth);
      PassesBoth(Inside(depth), ItemText(items[0]), Inside(depth), ItemsText(items[1..]), Inside(depth));
    }
  }

  lemma StringPasses(items: seq<Item>, depth: int)
    requires ItemsOk(items)
    ensures Passes(Outside(depth), StringText(items), Outside(depth))
  {
    ItemsPass(items, depth);
    PassesOne(Outside(depth), '"');
    PassesOne(Inside(depth), '"');
    PassesBoth(Outside(depth), "\"", Inside(depth), ItemsText(items), Inside(depth));
    PassesBoth(Outside(depth), "\"" + ItemsText(items), Inside(depth), "\"", Outside(depth));
  }

  lemma LiteralIsDull(text: string)
    requires ValueOk(Literal(text))
    ensures IsDull(text)
  {
    if text != "true" && text != "false" && text != "null" {
      NumberIsDull(text);
    }
  }

  lemma NumberIsDull(s: string)
    requires IsNumber(s)
    ensures IsDull(s)
  {
    var minus: string, whole: string, frac: string, exp: string :| IsNumberOf(s, minus, whole, frac, exp);
    assert IsDull(frac) by { if frac != "" { assert frac == [frac[0]] + frac[1..]; } }
    assert IsDull(exp) by {
      if exp != "" {
        if IsDigits(exp[1..]) { assert exp == [exp[0]] + exp[1..]; } else { assert exp == [exp[0], exp[1]] + exp[2..]; }
      }
    }
  }

  lemma WsIsDull(ws: string)
    requires WsOk(ws)
    ensures IsDull(ws)
  {}

  /** A value inside the object is passed over, whatever its strings and objects hold. */
  lemma {:induction false} ValuePasses(v: Value, depth: int)
    requires ValueOk(v) && depth >= 1
    ensures Passes(Outside(depth), ValueText(v), Outside(depth))
    decreases v, 1
  {
    match v
    case Literal(text) => LiteralIsDull(text); DullPasses(text, depth);
    case Text(items) => StringPasses(items, depth);
    case Array(ws, elements) =>
      WsIsDull(ws);
      DullPasses(ws, depth);
      DullPasses("[", depth);
      DullPasses("]", depth);
      ElementsPass(v, elements, depth);
      PassesBoth(Outside(depth), ws, Outside(depth), ElementsText(elements), Outside(depth));
      PassesBoth(Outside(depth), "[", Outside(depth), ws + ElementsText(elements), Outside(depth));
      PassesBoth(Outside(depth), "[" + (ws + ElementsText(elements)), Outside(depth), "]", Outside(depth));
    case Object(ws, members) =>
      InnerPasses(v, depth + 1);
      PassesOne(Outside(depth), '{');
      PassesOne(Outside(depth + 1), '}');
      PassesBoth(Outside(depth), "{", Outside(depth + 1), ws + MembersText(members), Outside(depth + 1));
      PassesBoth(Outside(depth), "{" + (ws + MembersText(members)), Outside(depth + 1), "}", Outside(depth));
  }

  /** What stands between an object's braces is passed over. */
  lemma {:induction false} InnerPasses(v: Value, depth: int)
    requires ValueOk(v) && v.Object? && depth >= 1
    ensures Passes(Outside(depth), v.ws + MembersText(v.members), Outside(depth))
    decreases v, 0
  {
    WsIsDull(v.ws);
    DullPasses(v.ws, depth);
    MembersPass(v, v.members, depth);
    PassesBoth(Outside(depth), v.ws, Outside(depth), MembersText(v.members), Outside(depth));
  }

  lemma {:induction false} ElementPasses(e: Element, depth: int)
    requires ElementOk(e) && depth >= 1
    ensures Passes(Outside(depth), ElementText(e), Outside(depth))
    decreases e, 0
  {
    WsIsDull(e.before);
    WsIsDull(e.after);
    DullPasses(e.before, depth);
    ValuePasses(e.value, depth);
    DullPasses(e.after, depth);
    PassesBoth(Outside(depth), ValueText(e.value), Outside(depth), e.after, Outside(depth));
    PassesBoth(Outside(depth), e.before, Outside(depth), ValueText(e.value) + e.after, Outside(depth));
  }

  lemma {:induction false} MemberPasses(m: Member, depth: int)
    requires MemberOk(m) && depth >= 1
    ensures Passes(Outside(depth), MemberText(m), Outside(depth))
    decreases m, 0
  {
    hide Passes;
    var at := Outside(depth);
    WsIsDull(m.before);
    WsIsDull(m.after);
    DullPasses(m.before, depth);
    StringPasses(m.name, depth);
    DullPasses(m.after, depth);
    DullPasses(":", depth);
    ElementPasses(m.element, depth);
    PassesBoth(at, ":", at, ElementText(m.element), at);
    PassesBoth(at, m.after, at, ":" + ElementText(m.element), at);
    PassesBoth(at, StringText(m.name), at, m.after + (":" + ElementText(m.element)), at);
    PassesBoth(at, m.before, at, StringText(m.name) + (m.after + (":" + ElementText(m.element))), at);
  }

  lemma {:induction false} ElementsPass(v: Value, es: seq<Element>, depth: int)
    requires v.Array? && depth >= 1 && (forall i :: 0 <= i < |es| ==> es[i] in v.elements && ElementOk(es[i]))
    ensures Passes(Outside(depth), ElementsText(es), Outside(depth))
    decreases v, 0, |es|
  {
    var at := Outside(depth);
    if es != [] {
      assert es[0] in v.elements;
      ElementPasses(es[0], depth);
      if |es| > 1 {
        ElementsPass(v, es[1..], depth);
        DullPasses(",", depth);
        PassesBoth(at, ",", at, ElementsText(es[1..]), at);
        PassesBoth(at, ElementText(es[0]), at, "," + ElementsText(es[1..]), at);
      }
    }
  }

  lemma {:induction false} MembersPass(v: Value, ms: seq<Member>, depth: int)
    requires v.Object? && depth >= 1 && (forall i :: 0 <= i < |ms| ==> ms[i] in v.members && MemberOk(ms[i]))
    ensures Passes(Outside(depth), MembersText(ms), Outside(depth))
    decreases v, 0, |ms|
  {
    var at := Outside(depth);
    if ms != [] {
      assert ms[0] in v.members;
      MemberPasses(ms[0], depth);
      if |ms| > 1 {
        MembersPass(v, ms[1..], depth);
        DullPasses(",", depth);
        PassesBoth(at, ",", at, MembersText(ms[1..]), at);
        PassesBoth(at, MemberText(ms[0]), at, "," + MembersText(ms[1..]), at);
      }
    }
  }

  // ---- Extraction ----

  /** Whatever follows an object's text, extraction returns exactly the object's text. */
  lemma ExtractsObject(o: Value, tail: string)
    requires ValueOk(o) && o.Object?
    ensures Extracted(ValueText(o) + tail) == Some(ValueText(o))
  {
    hide Passes;
    var inner := o.ws + MembersText(o.members);
    var s := ValueText(o) + tail;
    assert s == "{" + inner + "}" + tail;
    PassesOne(BEGIN, '{');
    EndAfter(s, 0, "{", BEGIN, Outside(1));
    InnerPasses(o, 1);
    assert s[1..1 + |inner|] == inner;
    EndAfter(s, 1, inner, Outside(1), Outside(1));
    assert s[1 + |inner|] == '}';
    assert End(s, 1 + |inner|, Outside(1)) == Some(2 + |inner|);
    assert s[..2 + |inner|] == ValueText(o);
  }

  /** Whatever is extracted opens the text, and its braces outside strings balance at its end and not before. */
  lemma ExtractedIsBalanced(s: string)
    requires Extracted(s).Some?
    ensures var o := Extracted(s).value;
            && o <= s && |o| >= 2 && o[0] == '{' && o[|o| - 1] == '}'
            && Passes(BEGIN, o[..|o| - 1], Outside(1))
  {
    EndIsBalanced(s, 0, BEGIN);
    var n := End(s, 0, BEGIN).value;
    assert s[..n][..n - 1] == s[0..n - 1];
  }

  lemma {:induction false} EndIsBalanced(s: string, i: nat, st: Scan)
    requires i <= |s| && End(s, i, st).Some?
    ensures var n := End(s, i, st).value;
            i < n <= |s| && s[n - 1] == '}' && Passes(st, s[i..n - 1], Outside(1))
    decreases |s| - i
  {
    var next := Stepped(st, s[i]);
    if Closes(st, s[i]) && next.depth == 0 {
      assert s[i..i] == "";
    } else {
      EndIsBalanced(s, i + 1, next);
      var n := End(s, i, st).value;
      assert s[i..n - 1][1..] == s[i + 1..n - 1];
    }
  }
}
