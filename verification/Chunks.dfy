/**
 A chat's text in chunks for embedding (internal/search/chunks.go), cut between the
 characters of its UTF-8 as section 4 of RFC 3629 defines them.
 */
module Chunks {

  type Byte = b: int | 0 <= b < 256

  type Text = seq<Byte>

  const CHUNK_CHARS: nat := 2000
  const MAX_CHUNKS: nat := 8
  const NEWLINE: Byte := 10

  // ---- UTF-8 ----

  predicate IsTail(b: Byte) { 0x80 <= b <= 0xBF }

  predicate TailsAt(s: Text, i: nat, n: nat) { n <= |s| && forall k :: i <= k < n ==> IsTail(s[k]) }

  /** How long the character at the start of a text is, or 0 if there is none. */
  function RuneLength(s: Text): (n: nat)
    ensures n <= 4 && n <= |s| && TailsAt(s, 1, n) && (n > 0 ==> !IsTail(s[0]))
  {
    if |s| == 0 then 0
    else if s[0] <= 0x7F then 1
    else if 0xC2 <= s[0] <= 0xDF && TailsAt(s, 1, 2) then 2
    else if s[0] == 0xE0 && TailsAt(s, 1, 3) && s[1] >= 0xA0 then 3
    else if 0xE1 <= s[0] <= 0xEC && TailsAt(s, 1, 3) then 3
    else if s[0] == 0xED && TailsAt(s, 1, 3) && s[1] <= 0x9F then 3
    else if 0xEE <= s[0] <= 0xEF && TailsAt(s, 1, 3) then 3
    else if s[0] == 0xF0 && TailsAt(s, 1, 4) && s[1] >= 0x90 then 4
    else if 0xF1 <= s[0] <= 0xF3 && TailsAt(s, 1, 4) then 4
    else if s[0] == 0xF4 && TailsAt(s, 1, 4) && s[1] <= 0x8F then 4
    else 0
  }

  predicate Valid(s: Text) {
    s == [] || (RuneLength(s) > 0 && Valid(s[RuneLength(s)..]))
  }

  lemma RuneAlone(s: Text, t: Text)
    requires RuneLength(s) > 0 && t <= s && |t| >= RuneLength(s)
    ensures RuneLength(t) == RuneLength(s)
  {
    assert forall k :: 0 <= k < |t| ==> t[k] == s[k];
  }

  lemma RuneWith(s: Text, t: Text)
    requires RuneLength(s) > 0
    ensures RuneLength(s + t) == RuneLength(s)
  {
    assert s <= s + t;
    assert forall k :: 0 <= k < |s| ==> (s + t)[k] == s[k];
  }

  lemma {:induction false} ValidBoth(s: Text, t: Text)
    requires Valid(s) && Valid(t)
    ensures Valid(s + t)
  {
    hide RuneLength;
    if s == [] {
      assert s + t == t;
    } else {
      var n := RuneLength(s);
      RuneWith(s, t);
      ValidBoth(s[n..], t);
      assert (s + t)[n..] == s[n..] + t;
    }
  }

  /** Text cut where a character starts is text on both sides. */
  lemma {:induction false} ValidCut(s: Text, c: nat)
    requires Valid(s) && c <= |s| && (c < |s| ==> !IsTail(s[c]))
    ensures Valid(s[..c]) && Valid(s[c..])
  {
    hide RuneLength;
    if c == 0 {
      assert s[..0] == [] && s[0..] == s;
    } else {
      var n := RuneLength(s);
      ValidCut(s[n..], c - n);
      RuneAlone(s, s[..c]);
      assert s[..c][n..] == s[n..][..c - n];
      assert s[n..][c - n..] == s[c..];
    }
  }

  /** No more than three bytes in a row continue a character. */
  lemma {:induction false} TailsEnd(s: Text, p: nat)
    requires Valid(s) && p + 3 < |s| && IsTail(s[p + 1]) && IsTail(s[p + 2]) && IsTail(s[p + 3])
    ensures !IsTail(s[p])
  {
    hide RuneLength;
    var n := RuneLength(s);
    if n < |s| { RuneStarts(s, n); }
    if n <= p { TailsEnd(s[n..], p - n); }
  }

  lemma RuneStarts(s: Text, n: nat)
    requires Valid(s) && s != [] && n == RuneLength(s) < |s|
    ensures !IsTail(s[n])
  {
    assert s[n..][0] == s[n];
  }

  /** The longest start of a text that is within n bytes and ends with a whole character: at most three short of n. */
  method TruncateUTF8(s: Text, n: int) returns (r: Text)
    requires Valid(s)
    ensures r <= s && Valid(r) && Valid(s[|r|..])
    ensures |r| <= if n <= 0 then 0 else n
    ensures |r| == |s| || |r| >= n - 3
    ensures |r| == |s| || |r| + RuneLength(s[|r|..]) > n
  {
    hide RuneLength, Valid;
    assert s[|s|..] == [] && s[0..] == s && Valid([]) by { NothingValid(); }
    if n <= 0 {
      if s != [] { StartsWithRune(s); }
      return [];
    }
    if |s| <= n { return s; }
    var cut := n;
    while cut > 0 && IsTail(s[cut])
      invariant 0 <= cut <= n && cut >= n - 3
      invariant forall k :: cut < k <= n ==> IsTail(s[k])
    {
      if cut == n - 3 { TailsEnd(s, cut); }
      cut := cut - 1;
    }
    TailsInside(s, cut, n);
    if cut == 0 { return []; }
    ValidCut(s, cut);
    return s[..cut];
  }

  lemma StartsWithRune(s: Text)
    requires Valid(s) && s != []
    ensures RuneLength(s) > 0
  {}

  /** Bytes that continue a character belong to the one that starts before them. */
  lemma TailsInside(s: Text, cut: nat, n: nat)
    requires Valid(s) && cut <= n < |s| && (cut > 0 ==> !IsTail(s[cut])) && forall k :: cut < k <= n ==> IsTail(s[k])
    ensures cut + RuneLength(s[cut..]) > n
  {
    hide RuneLength;
    if cut > 0 { ValidCut(s, cut); } else { assert s[0..] == s; }
    var t := s[cut..];
    var r := RuneLength(t);
    StartsWithRune(t);
    assert |t| == |s| - cut && forall k :: 0 <= k < |t| ==> t[k] == s[cut + k];
    if r < |t| { RuneStarts(t, r); }
  }

  lemma NothingValid()
    ensures Valid([])
  {}

  // ---- Pieces and chunks ----

  function Joined(ps: seq<Text>): Text {
    if ps == [] then [] else if |ps| == 1 then ps[0] else Joined(ps[..|ps| - 1]) + [NEWLINE] + ps[|ps| - 1]
  }

  function Glued(ps: seq<Text>): Text {
    if ps == [] then [] else Glued(ps[..|ps| - 1]) + ps[|ps| - 1]
  }

  /** The text of chunks without the newlines between their pieces. */
  function AllGlued(pss: seq<seq<Text>>): Text {
    if pss == [] then [] else AllGlued(pss[..|pss| - 1]) + Glued(pss[|pss| - 1])
  }

  ghost predicate PieceOk(p: Text) { p != [] && Valid(p) }

  /** A chunk is whole pieces of text, one a line. */
  ghost predicate ChunkOk(c: Text, ps: seq<Text>) {
    |ps| > 0 && (forall i :: 0 <= i < |ps| ==> PieceOk(ps[i])) && c == Joined(ps) && 0 < |c| <= CHUNK_CHARS && Valid(c)
  }

  ghost predicate ChunksOk(chunks: seq<Text>, pss: seq<seq<Text>>) {
    |pss| == |chunks| && forall i :: 0 <= i < |chunks| ==> ChunkOk(chunks[i], pss[i])
  }

  /** The chunk being built, if any. */
  ghost predicate CurrentOk(current: Text, cur: seq<Text>) {
    if current == [] then cur == [] else ChunkOk(current, cur)
  }

  lemma AddPiece(current: Text, cur: seq<Text>, piece: Text)
    requires CurrentOk(current, cur) && PieceOk(piece)
    requires |current| + (if current == [] then 0 else 1) + |piece| <= CHUNK_CHARS
    ensures var c := if current == [] then piece else current + [NEWLINE] + piece;
            ChunkOk(c, cur + [piece]) && CurrentOk(c, cur + [piece])
    ensures Glued(cur + [piece]) == Glued(cur) + piece
  {
    hide Valid, Joined, Glued;
    GluedMore(cur, piece);
    JoinedMore(cur, piece);
    if current != [] { ValidLine(current, piece); }
  }

  lemma GluedMore(cur: seq<Text>, piece: Text)
    ensures Glued(cur + [piece]) == Glued(cur) + piece
  {
    assert (cur + [piece])[..|cur|] == cur;
  }

  lemma JoinedMore(cur: seq<Text>, piece: Text)
    ensures Joined(cur + [piece]) == if cur == [] then piece else Joined(cur) + [NEWLINE] + piece
  {
    assert (cur + [piece])[..|cur|] == cur;
  }

  lemma ValidLine(current: Text, piece: Text)
    requires Valid(current) && Valid(piece)
    ensures Valid(current + [NEWLINE] + piece)
  {
    assert Valid([NEWLINE]) by { assert [NEWLINE][1..] == []; }
    ValidBoth(current, [NEWLINE]);
    ValidBoth(current + [NEWLINE], piece);
  }

  lemma AddChunk(chunks: seq<Text>, pss: seq<seq<Text>>, c: Text, ps: seq<Text>)
    requires ChunksOk(chunks, pss) && ChunkOk(c, ps)
    ensures ChunksOk(chunks + [c], pss + [ps]) && AllGlued(pss + [ps]) == AllGlued(pss) + Glued(ps)
  {
    hide ChunkOk;
    assert (pss + [ps])[..|pss|] == pss;
  }

  /** Adds the chunk in the making, if it has any text, and tells whether the cap allows one more. */
  method Flush(chunks: seq<Text>, current: Text, ghost pss: seq<seq<Text>>, ghost cur: seq<Text>)
    returns (out: seq<Text>, room: bool, ghost outs: seq<seq<Text>>)
    requires ChunksOk(chunks, pss) && CurrentOk(current, cur) && |chunks| < MAX_CHUNKS
    ensures ChunksOk(out, outs) && AllGlued(outs) == AllGlued(pss) + Glued(cur)
    ensures |chunks| <= |out| <= MAX_CHUNKS && room == (|out| < MAX_CHUNKS)
    ensures out == chunks + (if current == [] then [] else [current]) && outs == pss + (if current == [] then [] else [cur])
  {
    if current == [] { return chunks, true, pss; }
    AddChunk(chunks, pss, current, cur);
    out, outs := chunks + [current], pss + [cur];
    room := |out| < MAX_CHUNKS;
  }

  /** What is packed and what is left of a part are all there was. */
  ghost predicate Packed(out: seq<Text>, outs: seq<seq<Text>>, building: Text, pieces: seq<Text>, left: Text, all: Text) {
    && ChunksOk(out, outs) && CurrentOk(building, pieces) && |out| < MAX_CHUNKS && Valid(left)
    && AllGlued(outs) + Glued(pieces) + left == all
  }

  /** No further chunk is kept. */
  ghost predicate Full(out: seq<Text>, outs: seq<seq<Text>>, all: Text) {
    ChunksOk(out, outs) && |out| == MAX_CHUNKS && AllGlued(outs) <= all
  }

  method FlushPacked(chunks: seq<Text>, current: Text, ghost pss: seq<seq<Text>>, ghost cur: seq<Text>, ghost left: Text, ghost all: Text)
    returns (out: seq<Text>, room: bool, ghost outs: seq<seq<Text>>)
    requires Packed(chunks, pss, current, cur, left, all) && current != [] && left != []
    requires Tight(chunks, pss) && Linked(chunks, current, cur, left) && NoRoom(current, left)
    ensures if room then Packed(out, outs, [], [], left, all) else Full(out, outs, all)
    ensures Tight(out, outs) && Linked(out, [], [], left) && outs == pss + [cur]
  {
    hide ChunksOk, CurrentOk, Valid, Glued, AllGlued, Tight, Linked, NoRoom;
    SameCount(chunks, pss, current, cur, left, all);
    TightFlush(chunks, pss, current, cur, left);
    out, room, outs := Flush(chunks, current, pss, cur);
    NoPieces();
    assert AllGlued(outs) + [] + left == all;
  }

  lemma SameCount(out: seq<Text>, outs: seq<seq<Text>>, building: Text, pieces: seq<Text>, left: Text, all: Text)
    requires Packed(out, outs, building, pieces, left, all)
    ensures |out| == |outs| && (building == [] <==> pieces == [])
  {}

  /** A piece of what is left joins the chunk being built. */
  lemma PiecePacked(out: seq<Text>, outs: seq<seq<Text>>, building: Text, pieces: seq<Text>, left: Text, all: Text, piece: Text)
    requires Packed(out, outs, building, pieces, left, all) && PieceOk(piece) && piece <= left && Valid(left[|piece|..])
    requires |building| + (if building == [] then 0 else 1) + |piece| <= CHUNK_CHARS
    ensures Packed(out, outs, if building == [] then piece else building + [NEWLINE] + piece, pieces + [piece], left[|piece|..], all)
  {
    hide ChunksOk, CurrentOk, ChunkOk, Valid, Glued, AllGlued;
    AddPiece(building, pieces, piece);
    assert left == piece + left[|piece|..];
    GlueOver(AllGlued(outs), Glued(pieces), piece, left[|piece|..]);
  }

  lemma GlueOver(a: Text, b: Text, c: Text, d: Text)
    ensures a + (b + c) + d == a + b + (c + d)
  {}

  // ---- Chunks are as full as the text allows ----

  /** No chunk had room for the first piece of the next. */
  ghost predicate Tight(out: seq<Text>, outs: seq<seq<Text>>) {
    forall i :: 0 < i < |out| && i < |outs| && |outs[i]| > 0 ==> |out[i - 1]| + 1 + |outs[i][0]| > CHUNK_CHARS
  }

  /** A chunk has no room for the next character of a text, or none for a text a chunk of its own can hold. */
  ghost predicate NoRoom(c: Text, left: Text) {
    |c| + 1 + RuneLength(left) > CHUNK_CHARS || (|left| <= CHUNK_CHARS && |c| + 1 + |left| > CHUNK_CHARS)
  }

  /** The last chunk closed had no room for what comes next. */
  ghost predicate Linked(out: seq<Text>, building: Text, pieces: seq<Text>, left: Text) {
    out != [] ==>
      var c := out[|out| - 1];
      if building != [] then |pieces| > 0 && |c| + 1 + |pieces[0]| > CHUNK_CHARS else left != [] && NoRoom(c, left)
  }

  lemma TightFlush(out: seq<Text>, outs: seq<seq<Text>>, building: Text, pieces: seq<Text>, left: Text)
    requires Tight(out, outs) && |out| == |outs| && building != [] && Linked(out, building, pieces, left)
    ensures Tight(out + [building], outs + [pieces])
    ensures left != [] && NoRoom(building, left) ==> Linked(out + [building], [], [], left)
  {}

  /** The piece taken for a new chunk is one the chunk before had no room for. */
  lemma LinkPiece(out: seq<Text>, building: Text, pieces: seq<Text>, left: Text, piece: Text)
    requires Linked(out, building, pieces, left) && PieceOk(piece) && piece <= left && (building == [] <==> pieces == [])
    requires building == [] && |left| <= CHUNK_CHARS ==> piece == left
    ensures Linked(out, if building == [] then piece else building + [NEWLINE] + piece, pieces + [piece], left[|piece|..])
  {
    hide RuneLength;
    if building == [] && out != [] {
      assert left == piece + left[|piece|..];
      StartsWithRune(piece);
      RuneWith(piece, left[|piece|..]);
      RuneFits(piece);
    }
  }

  lemma RuneFits(s: Text)
    ensures RuneLength(s) <= |s|
  {}

  /** A text is one of the pieces so far. */
  ghost predicate Held(outs: seq<seq<Text>>, pieces: seq<Text>, p: Text) {
    p in pieces || exists k :: 0 <= k < |outs| && p in outs[k]
  }

  /** Pieces stay whole. */
  ghost predicate Keeps(pss: seq<seq<Text>>, cur: seq<Text>, outs: seq<seq<Text>>, pieces: seq<Text>) {
    forall p :: Held(pss, cur, p) ==> Held(outs, pieces, p)
  }

  lemma FlushKeeps(pss: seq<seq<Text>>, cur: seq<Text>)
    ensures Keeps(pss, cur, pss + [cur], [])
  {
    forall p | Held(pss, cur, p) ensures Held(pss + [cur], [], p) {
      if p in cur {
        assert (pss + [cur])[|pss|] == cur;
      } else {
        var k :| 0 <= k < |pss| && p in pss[k];
        assert (pss + [cur])[k] == pss[k];
      }
    }
  }

  lemma PieceKeeps(pss: seq<seq<Text>>, cur: seq<Text>, piece: Text)
    ensures Keeps(pss, cur, pss, cur + [piece]) && Held(pss, cur + [piece], piece)
  {}

  lemma KeepsOn(a: seq<seq<Text>>, x: seq<Text>, b: seq<seq<Text>>, y: seq<Text>, c: seq<seq<Text>>, z: seq<Text>)
    requires Keeps(a, x, b, y) && Keeps(b, y, c, z)
    ensures Keeps(a, x, c, z)
  {}

  /** Packs one part after what is packed; stops when no further chunk is kept. */
  method PackPart(chunks: seq<Text>, current: Text, part: Text, ghost pss: seq<seq<Text>>, ghost cur: seq<Text>, ghost all: Text)
    returns (out: seq<Text>, building: Text, room: bool, ghost outs: seq<seq<Text>>, ghost pieces: seq<Text>)
    requires Packed(chunks, pss, current, cur, part, all)
    requires Tight(chunks, pss) && Linked(chunks, current, cur, part)
    ensures if room then Packed(out, outs, building, pieces, [], all) && Linked(out, building, pieces, []) else Full(out, outs, all)
    ensures Tight(out, outs) && (room ==> building != [] || out == [])
    ensures Keeps(pss, cur, outs, pieces) && (room && 0 < |part| <= CHUNK_CHARS ==> Held(outs, pieces, part))
  {
    hide Packed, Full, Valid, Tight, Linked, NoRoom, RuneLength, PieceOk, Held, Keeps;
    assert Keeps(pss, cur, pss, cur) by { KeepsSelf(pss, cur); }
    var left := part;
    out, building, room, outs, pieces := chunks, current, true, pss, cur;
    while |left| > 0
      invariant room && Packed(out, outs, building, pieces, left, all)
      invariant Tight(out, outs) && Linked(out, building, pieces, left)
      invariant Keeps(pss, cur, outs, pieces) && (0 < |part| <= CHUNK_CHARS ==> if left == [] then Held(outs, pieces, part) else left == part)
      decreases |left|, |building|
    {
      PackedFacts(out, outs, building, pieces, left, all);
      SameCount(out, outs, building, pieces, left, all);
      if |building| > 0 && |left| + 1 <= CHUNK_CHARS - |building| {
        WholePiece(left);
        PiecePacked(out, outs, building, pieces, left, all, left);
        LinkPiece(out, building, pieces, left, left);
        PieceKeeps(outs, pieces, left);
        KeepsOn(pss, cur, outs, pieces, outs, pieces + [left]);
        building, pieces, left := building + [NEWLINE] + left, pieces + [left], [];
        break;
      }
      if |building| > 0 && |left| <= CHUNK_CHARS {
        assert NoRoom(building, left) by { ShortDoesNotFit(building, left); }
        FlushKeeps(outs, pieces);
        KeepsOn(pss, cur, outs, pieces, outs + [pieces], []);
        out, room, outs := FlushPacked(out, building, outs, pieces, left, all);
        building, pieces := [], [];
        if !room { return; }
        continue;
      }
      var available := CHUNK_CHARS - |building|;
      if |building| > 0 { available := available - 1; }
      var piece := TruncateUTF8(left, available);
      if piece == [] {
        assert NoRoom(building, left) by { RuneDoesNotFit(building, left); }
        FlushKeeps(outs, pieces);
        KeepsOn(pss, cur, outs, pieces, outs + [pieces], []);
        out, room, outs := FlushPacked(out, building, outs, pieces, left, all);
        building, pieces := [], [];
        if !room { return; }
        continue;
      }
      assert PieceOk(piece) by { IsPiece(piece); }
      PiecePacked(out, outs, building, pieces, left, all, piece);
      LinkPiece(out, building, pieces, left, piece);
      PieceKeeps(outs, pieces, piece);
      KeepsOn(pss, cur, outs, pieces, outs, pieces + [piece]);
      building := if |building| > 0 then building + [NEWLINE] + piece else piece;
      pieces, left := pieces + [piece], left[|piece|..];
      if |left| > 0 {
        assert NoRoom(building, left) by { RuneDoesNotFit(building, left); }
        FlushKeeps(outs, pieces);
        KeepsOn(pss, cur, outs, pieces, outs + [pieces], []);
        out, room, outs := FlushPacked(out, building, outs, pieces, left, all);
        building, pieces := [], [];
        if !room { return; }
      }
    }
    NothingLeft(out, building, pieces);
  }

  lemma KeepsSelf(pss: seq<seq<Text>>, cur: seq<Text>)
    ensures Keeps(pss, cur, pss, cur)
  {}

  lemma WholePiece(left: Text)
    requires left != [] && Valid(left)
    ensures PieceOk(left) && left[|left|..] == []
  {}

  lemma IsPiece(piece: Text)
    requires piece != [] && Valid(piece)
    ensures PieceOk(piece)
  {}

  lemma ShortDoesNotFit(c: Text, left: Text)
    requires |left| <= CHUNK_CHARS && |c| + 1 + |left| > CHUNK_CHARS
    ensures NoRoom(c, left)
  {}

  lemma RuneDoesNotFit(c: Text, left: Text)
    requires |c| + 1 + RuneLength(left) > CHUNK_CHARS
    ensures NoRoom(c, left)
  {}

  lemma NothingLeft(out: seq<Text>, building: Text, pieces: seq<Text>)
    requires Linked(out, building, pieces, [])
    ensures building != [] || out == []
  {}

  lemma PackedFacts(out: seq<Text>, outs: seq<seq<Text>>, building: Text, pieces: seq<Text>, left: Text, all: Text)
    requires Packed(out, outs, building, pieces, left, all)
    ensures |building| <= CHUNK_CHARS && Valid(left) && Valid(left[|left|..])
  {}

  lemma NoPieces()
    ensures CurrentOk([], []) && Glued([]) == []
  {}

  /**
   Every chunk is text of at most CHUNK_CHARS bytes that splits no character, there are at
   most MAX_CHUNKS, and what they hold, less the newlines between pieces, is the parts in
   order: all of them, or as far as the chunks go. No chunk had room for the first piece of
   the next, and a part that fits in a chunk is one piece.
   */
  method ChatChunks(parts: seq<Text>) returns (chunks: seq<Text>, room: bool, ghost pss: seq<seq<Text>>)
    requires forall i :: 0 <= i < |parts| ==> Valid(parts[i])
    ensures |chunks| <= MAX_CHUNKS && ChunksOk(chunks, pss)
    ensures room ==> AllGlued(pss) == Glued(parts)
    ensures !room ==> |chunks| == MAX_CHUNKS && AllGlued(pss) <= Glued(parts)
    ensures forall i :: 0 < i < |chunks| ==> |pss[i]| > 0 && |chunks[i - 1]| + 1 + |pss[i][0]| > CHUNK_CHARS
    ensures room ==> forall i :: 0 <= i < |parts| && 0 < |parts[i]| <= CHUNK_CHARS ==> Held(pss, [], parts[i])
  {
    hide ChunksOk, CurrentOk, Valid, AllGlued, Glued, Tight, Linked, Held, Keeps;
    var current: Text;
    ghost var cur: seq<Text>;
    chunks, current, room, pss, cur := [], [], true, [], [];
    StartOk();
    assert Tight(chunks, pss) && Linked(chunks, current, cur, []) by { StartTight(); }
    for i := 0 to |parts|
      invariant room && Packed(chunks, pss, current, cur, [], Glued(parts[..i]))
      invariant Tight(chunks, pss) && Linked(chunks, current, cur, []) && (current != [] || chunks == [])
      invariant forall j :: 0 <= j < i && 0 < |parts[j]| <= CHUNK_CHARS ==> Held(pss, cur, parts[j])
    {
      ghost var pss0, cur0 := pss, cur;
      LinkedSame(chunks, current, cur, parts[i]);
      NextPart(chunks, pss, current, cur, parts, i);
      chunks, current, room, pss, cur := PackPart(chunks, current, parts[i], pss, cur, Glued(parts[..i + 1]));
      if !room {
        GluedPrefix(parts, i + 1);
        TightMeans(chunks, pss);
        return;
      }
      StillHeld(pss0, cur0, pss, cur, parts, i);
    }
    assert parts[..|parts|] == parts;
    if current != [] {
      SameCount(chunks, pss, current, cur, [], Glued(parts));
      TightFlush(chunks, pss, current, cur, []);
      FlushKeeps(pss, cur);
      StillHeld(pss, cur, pss + [cur], [], parts, |parts|);
    } else {
      SameCount(chunks, pss, current, cur, [], Glued(parts));
    }
    chunks, room, pss := Flush(chunks, current, pss, cur);
    TightMeans(chunks, pss);
    room := true;
  }

  lemma StillHeld(pss: seq<seq<Text>>, cur: seq<Text>, outs: seq<seq<Text>>, pieces: seq<Text>, parts: seq<Text>, n: nat)
    requires Keeps(pss, cur, outs, pieces) && n <= |parts|
    requires forall j :: 0 <= j < n && 0 < |parts[j]| <= CHUNK_CHARS ==> Held(pss, cur, parts[j])
    ensures forall j :: 0 <= j < n && 0 < |parts[j]| <= CHUNK_CHARS ==> Held(outs, pieces, parts[j])
  {
    hide Held;
  }

  lemma StartTight()
    ensures Tight([], []) && Linked([], [], [], [])
  {}

  lemma LinkedSame(out: seq<Text>, building: Text, pieces: seq<Text>, left: Text)
    requires Linked(out, building, pieces, []) && (building != [] || out == [])
    ensures Linked(out, building, pieces, left)
  {}

  lemma TightMeans(chunks: seq<Text>, pss: seq<seq<Text>>)
    requires Tight(chunks, pss) && ChunksOk(chunks, pss)
    ensures forall i :: 0 < i < |chunks| ==> |pss[i]| > 0 && |chunks[i - 1]| + 1 + |pss[i][0]| > CHUNK_CHARS
  {
    forall i | 0 < i < |chunks| ensures |pss[i]| > 0 && |chunks[i - 1]| + 1 + |pss[i][0]| > CHUNK_CHARS {
      assert ChunkOk(chunks[i], pss[i]);
    }
  }

  /** Two neighbouring chunks could not have been one. */
  lemma NeighboursApart(chunks: seq<Text>, pss: seq<seq<Text>>, i: nat)
    requires ChunksOk(chunks, pss) && 0 < i < |chunks| && |pss[i]| > 0 && |chunks[i - 1]| + 1 + |pss[i][0]| > CHUNK_CHARS
    ensures |chunks[i - 1]| + 1 + |chunks[i]| > CHUNK_CHARS
  {
    hide Valid;
    assert ChunkOk(chunks[i], pss[i]);
    FirstFits(pss[i]);
  }

  lemma {:induction false} FirstFits(ps: seq<Text>)
    requires |ps| > 0
    ensures |ps[0]| <= |Joined(ps)|
  {
    if |ps| > 1 { FirstFits(ps[..|ps| - 1]); }
  }

  lemma NextPart(chunks: seq<Text>, pss: seq<seq<Text>>, current: Text, cur: seq<Text>, parts: seq<Text>, i: nat)
    requires i < |parts| && Valid(parts[i]) && Packed(chunks, pss, current, cur, [], Glued(parts[..i]))
    ensures Packed(chunks, pss, current, cur, parts[i], Glued(parts[..i + 1]))
  {
    hide ChunksOk, CurrentOk, Valid, AllGlued;
    assert parts[..i + 1] == parts[..i] + [parts[i]];
    GluedMore(parts[..i], parts[i]);
  }

  lemma StartOk()
    ensures Packed([], [], [], [], [], Glued([]))
  {}

  lemma {:induction false} GluedPrefix(ps: seq<Text>, n: nat)
    requires n <= |ps|
    ensures Glued(ps[..n]) <= Glued(ps)
  {
    if n == |ps| {
      assert ps[..n] == ps;
    } else {
      GluedPrefix(ps[..|ps| - 1], n);
      assert ps[..|ps| - 1][..n] == ps[..n];
    }
  }
}
