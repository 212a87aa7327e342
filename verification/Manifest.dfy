/** Segmented manifest storage (src/manifest.rs): a game's manifest text is cut
    into database rows on UTF-8 character boundaries and glued back on load. */
module Manifest {
  import opened Wrappers

  type Byte = b: int | 0 <= b < 256
  type Text = seq<Byte>

  const SEGMENT_BYTES: nat := 4 * 1024 * 1024

  // ------------------------------------------------- UTF-8, RFC 3629 section 3

  predicate IsTail(b: Byte) {
    0x80 <= b <= 0xBF
  }

  /** Length of the well-formed character at the front, 0 if there is none. */
  function CharLength(s: Text): (n: nat)
    ensures n <= 4 && n <= |s|
    ensures n > 0 ==> !IsTail(s[0]) && forall k :: 1 <= k < n ==> IsTail(s[k])
  {
    if s == [] then 0
    else if s[0] <= 0x7F then 1
    else if |s| >= 2 && 0xC2 <= s[0] <= 0xDF && IsTail(s[1]) then 2
    else if |s| >= 3 && 0xE0 <= s[0] <= 0xEF && IsTail(s[1]) && IsTail(s[2])
            && (s[0] == 0xE0 ==> s[1] >= 0xA0) && (s[0] == 0xED ==> s[1] <= 0x9F) then 3
    else if |s| >= 4 && 0xF0 <= s[0] <= 0xF4 && IsTail(s[1]) && IsTail(s[2]) && IsTail(s[3])
            && (s[0] == 0xF0 ==> s[1] >= 0x90) && (s[0] == 0xF4 ==> s[1] <= 0x8F) then 4
    else 0
  }

  /** The Unicode scalar values and their encoding, as the standard tabulates it. */
  predicate IsScalar(v: nat) {
    v <= 0x10_FFFF && !(0xD800 <= v <= 0xDFFF)
  }

  function Encoded(v: nat): (s: Text)
    requires IsScalar(v)
    ensures s != []
  {
    if v < 0x80 then [v]
    else if v < 0x800 then [0xC0 + v / 64, 0x80 + v % 64]
    else if v < 0x1_0000 then [0xE0 + v / 4096, 0x80 + v / 64 % 64, 0x80 + v % 64]
    else [0xF0 + v / 262_144, 0x80 + v / 4096 % 64, 0x80 + v / 64 % 64, 0x80 + v % 64]
  }

  /** A text starts with a character exactly if it starts with the encoding of one. */
  lemma ScalarsAreCharacters(v: nat, rest: Text)
    requires IsScalar(v)
    ensures CharLength(Encoded(v) + rest) == |Encoded(v)|
  {
  }

  function TailBits(b: Byte): nat
    requires IsTail(b)
  {
    b - 0x80
  }

  lemma Sixes(a: nat, b: nat)
    requires b < 64
    ensures (a * 64 + b) / 64 == a && (a * 64 + b) % 64 == b
  {
  }

  lemma ThreeSixes(a: nat, b: nat, c: nat)
    requires b < 64 && c < 64
    ensures var v := (a * 64 + b) * 64 + c; v / 4096 == a && v / 64 % 64 == b && v % 64 == c
  {
    Sixes(a, b);
    Sixes(a * 64 + b, c);
  }

  lemma FourSixes(a: nat, b: nat, c: nat, d: nat)
    requires b < 64 && c < 64 && d < 64
    ensures var v := ((a * 64 + b) * 64 + c) * 64 + d;
            v / 262_144 == a && v / 4096 % 64 == b && v / 64 % 64 == c && v % 64 == d
  {
    ThreeSixes(a, b, c);
    Sixes((a * 64 + b) * 64 + c, d);
    assert (((a * 64 + b) * 64 + c) * 64 + d) / 4096 == a * 64 + b;
    Sixes(a, b);
  }

  lemma LongCharactersAreScalars(s: Text) returns (v: nat)
    requires CharLength(s) >= 3
    ensures IsScalar(v) && s[..CharLength(s)] == Encoded(v)
  {
    if CharLength(s) == 3 {
      var a: nat := s[0] - 0xE0;
      v := (a * 64 + TailBits(s[1])) * 64 + TailBits(s[2]);
      ThreeSixes(a, TailBits(s[1]), TailBits(s[2]));
    } else {
      var a: nat := s[0] - 0xF0;
      v := ((a * 64 + TailBits(s[1])) * 64 + TailBits(s[2])) * 64 + TailBits(s[3]);
      FourSixes(a, TailBits(s[1]), TailBits(s[2]), TailBits(s[3]));
    }
  }

  lemma CharactersAreScalars(s: Text) returns (v: nat)
    requires CharLength(s) > 0
    ensures IsScalar(v) && s[..CharLength(s)] == Encoded(v)
  {
    if CharLength(s) == 1 {
      v := s[0];
    } else if CharLength(s) == 2 {
      var a: nat := s[0] - 0xC0;
      v := a * 64 + TailBits(s[1]);
      Sixes(a, TailBits(s[1]));
    } else {
      v := LongCharactersAreScalars(s);
    }
  }

  predicate IsUtf8(s: Text)
    decreases |s|
  {
    s == [] || (CharLength(s) > 0 && IsUtf8(s[CharLength(s)..]))
  }

  /** `str::is_char_boundary`. */
  predicate IsBoundary(s: Text, i: nat) {
    i == |s| || (i < |s| && !IsTail(s[i]))
  }

  /** Looking at more text does not change the first character. */
  lemma CharLengthOfPrefix(s: Text, n: nat)
    requires CharLength(s) > 0 && CharLength(s) <= n <= |s|
    ensures CharLength(s[..n]) == CharLength(s)
  {
  }

  /** Cutting at a boundary leaves valid text on both sides. */
  lemma {:induction false} CutsAreUtf8(s: Text, i: nat)
    requires IsUtf8(s) && i <= |s| && IsBoundary(s, i)
    ensures IsUtf8(s[..i]) && IsUtf8(s[i..])
    decreases |s|
  {
    var n := CharLength(s);
    if i == 0 {
      assert s[..i] == [] && s[i..] == s;
    } else {
      assert i >= n;
      var rest := s[n..];
      CutsAreUtf8(rest, i - n);
      assert rest[i - n..] == s[i..];
      CharLengthOfPrefix(s, i);
      assert s[..i][n..] == rest[..i - n];
    }
  }

  /** From any boundary the next one is at most four bytes on. */
  lemma NextBoundary(s: Text, i: nat)
    requires IsUtf8(s) && i < |s| && IsBoundary(s, i)
    ensures var n := CharLength(s[i..]);
            1 <= n <= 4 && i + n <= |s| && IsBoundary(s, i + n) && forall k :: i < k < i + n ==> !IsBoundary(s, k)
  {
    CutsAreUtf8(s, i);
    var n := CharLength(s[i..]);
    var rest := s[i..][n..];
    assert IsUtf8(rest) && rest == s[i + n..];
    if i + n < |s| {
      assert CharLength(rest) > 0 && rest[0] == s[i + n];
    }
    forall k | i < k < i + n ensures !IsBoundary(s, k) {
      assert s[k] == s[i..][k - i];
    }
  }

  // ---------------------------------------------------------------- splitting

  /** The longest the greedy splitter may make a piece: `max` bytes, or one whole
      character when not even that fits. */
  predicate Fits(piece: Text, max: nat) {
    piece != [] && IsUtf8(piece) && (|piece| <= max || |piece| == CharLength(piece))
  }

  /** A piece that is followed by more text could not have taken one character more. */
  predicate Full(piece: Text, after: Text, max: nat) {
    after != [] ==> |piece| + CharLength(after) > max
  }

  /** Where piece `k` starts in the text. */
  function Offset(pieces: seq<Text>, k: nat): nat
    requires k <= |pieces|
  {
    if k == 0 then 0 else Offset(pieces, k - 1) + |pieces[k - 1]|
  }

  predicate PieceAt(s: Text, pieces: seq<Text>, k: nat, max: nat)
    requires k < |pieces|
  {
    var start, end := Offset(pieces, k), Offset(pieces, k + 1);
    end <= |s| && pieces[k] == s[start..end] && Fits(pieces[k], max) && Full(pieces[k], s[end..], max)
  }

  ghost predicate IsSplit(s: Text, pieces: seq<Text>, max: nat) {
    Offset(pieces, |pieces|) == |s| && forall k: nat :: k < |pieces| ==> PieceAt(s, pieces, k, max)
  }

  lemma {:induction false} OffsetAppend(pieces: seq<Text>, more: Text, k: nat)
    requires k <= |pieces|
    ensures Offset(pieces + [more], k) == Offset(pieces, k)
  {
    if k > 0 {
      OffsetAppend(pieces, more, k - 1);
    }
  }

  lemma AppendPiece(s: Text, pieces: seq<Text>, end: nat, max: nat)
    requires forall k: nat :: k < |pieces| ==> PieceAt(s, pieces, k, max)
    requires Offset(pieces, |pieces|) < end <= |s|
    requires Fits(s[Offset(pieces, |pieces|)..end], max) && Full(s[Offset(pieces, |pieces|)..end], s[end..], max)
    ensures var longer := pieces + [s[Offset(pieces, |pieces|)..end]];
            && Offset(longer, |longer|) == end
            && forall k: nat :: k < |longer| ==> PieceAt(s, longer, k, max)
  {
    var piece := s[Offset(pieces, |pieces|)..end];
    OffsetAppend(pieces, piece, |pieces|);
    forall k: nat | k < |pieces| + 1
      ensures PieceAt(s, pieces + [piece], k, max)
    {
      if k < |pieces| {
        assert PieceAt(s, pieces, k, max);
        OffsetAppend(pieces, piece, k);
        OffsetAppend(pieces, piece, k + 1);
      }
    }
  }

  method SplitSegments(s: Text, max0: nat) returns (segments: seq<Text>)
    requires IsUtf8(s)
    ensures IsSplit(s, segments, if max0 < 1 then 1 else max0)
  {
    segments := [];
    var start: nat := 0;
    var max := if max0 < 1 then 1 else max0;
    while start < |s|
      invariant start <= |s| && IsBoundary(s, start) && start == Offset(segments, |segments|)
      invariant forall k: nat :: k < |segments| ==> PieceAt(s, segments, k, max)
    {
      var end := if start + max < |s| then start + max else |s|;
      while end < |s| && !IsBoundary(s, end)
        invariant start <= end <= |s| && end <= start + max
        invariant forall k :: end < k <= start + max && k <= |s| ==> !IsBoundary(s, k)
        decreases end
      {
        end := end - 1;
      }
      if end == start {
        end := start + 1;
        while end < |s| && !IsBoundary(s, end)
          invariant start < end <= |s|
          invariant forall k :: start < k < end ==> !IsBoundary(s, k)
        {
          end := end + 1;
        }
      }
      PieceIsGood(s, start, end, max);
      AppendPiece(s, segments, end, max);
      segments := segments + [s[start..end]];
      start := end;
    }
  }

  /** One round of the splitter, on the boundaries it looked at. */
  lemma PieceIsGood(s: Text, start: nat, end: nat, max: nat)
    requires IsUtf8(s) && start < end <= |s| && max >= 1 && IsBoundary(s, start) && IsBoundary(s, end)
    requires forall k :: end < k <= start + max && k <= |s| ==> !IsBoundary(s, k)
    requires end <= start + max || forall k :: start < k < end ==> !IsBoundary(s, k)
    ensures Fits(s[start..end], max) && Full(s[start..end], s[end..], max)
  {
    CutsAreUtf8(s, end);
    CutsAreUtf8(s[..end], start);
    assert s[..end][start..] == s[start..end];
    NextBoundary(s, start);
    if end < |s| {
      NextBoundary(s, end);
    }
    if end > start + max {
      assert end == start + CharLength(s[start..]);
      CharLengthOfPrefix(s[start..], end - start);
      assert s[start..][..end - start] == s[start..end];
    }
  }

  // --------------------------------------------------------- what a split means

  function Concat(pieces: seq<Text>): Text {
    if pieces == [] then [] else Concat(pieces[..|pieces| - 1]) + pieces[|pieces| - 1]
  }

  lemma {:induction false} ConcatUpTo(s: Text, pieces: seq<Text>, max: nat, k: nat)
    requires IsSplit(s, pieces, max) && k <= |pieces|
    ensures Offset(pieces, k) <= |s| && Concat(pieces[..k]) == s[..Offset(pieces, k)]
  {
    if k > 0 {
      ConcatUpTo(s, pieces, max, k - 1);
      assert PieceAt(s, pieces, k - 1, max);
      assert pieces[..k][..k - 1] == pieces[..k - 1];
    }
  }

  /** Glueing the pieces together gives the text back. */
  lemma SplitConcatenates(s: Text, pieces: seq<Text>, max: nat)
    requires IsSplit(s, pieces, max)
    ensures Concat(pieces) == s
  {
    ConcatUpTo(s, pieces, max, |pieces|);
    assert pieces[..|pieces|] == pieces && s[..|s|] == s;
  }

  /** With room for any character no piece is too long, and only the last may be
      more than three bytes short. */
  lemma PieceSizes(s: Text, pieces: seq<Text>, max: nat, k: nat)
    requires IsSplit(s, pieces, max) && max >= 4 && k < |pieces|
    ensures 1 <= |pieces[k]| <= max && IsUtf8(pieces[k])
    ensures k < |pieces| - 1 ==> |pieces[k]| >= max - 3
  {
    assert PieceAt(s, pieces, k, max);
    if k < |pieces| - 1 {
      assert PieceAt(s, pieces, k + 1, max);
    }
  }

  lemma {:induction false} OffsetsAreLarge(s: Text, pieces: seq<Text>, max: nat, k: nat)
    requires IsSplit(s, pieces, max) && max >= 4 && k < |pieces|
    ensures Offset(pieces, k) >= k * (max - 3)
  {
    if k > 0 {
      OffsetsAreLarge(s, pieces, max, k - 1);
      PieceSizes(s, pieces, max, k - 1);
    }
  }

  /** So the number of rows is bounded by the size of the text. */
  lemma PieceCount(s: Text, pieces: seq<Text>, max: nat)
    requires IsSplit(s, pieces, max) && max >= 4 && s != []
    ensures (|pieces| - 1) * (max - 3) < |s|
  {
    var last := |pieces| - 1;
    OffsetsAreLarge(s, pieces, max, last);
    PieceSizes(s, pieces, max, last);
  }

  // ------------------------------------------------------------------ storage

  /** `game_manifests`; `legacy` is the inline column of rows older than segments. */
  datatype Meta = Meta(version: string, legacy: Text)

  /** What a load answers: the stored text of that very version, or nothing. */
  function Loaded(metas: map<string, Meta>, segments: map<string, seq<Text>>, id: string, version: string)
    : Option<Text>
  {
    if id !in metas || metas[id].version != version then None
    else
      var rows := if id in segments then segments[id] else [];
      var json := if rows == [] then metas[id].legacy else Concat(rows);
      if json == [] then None else Some(json)
  }

  lemma StoredLoads(
    metas: map<string, Meta>, segments: map<string, seq<Text>>, id: string, version: string, json: Text,
    bodies: seq<Text>)
    requires IsSplit(json, bodies, SEGMENT_BYTES) && json != []
    ensures var metas', segments' := metas[id := Meta(version, [])], segments[id := bodies];
            && Loaded(metas', segments', id, version) == Some(json)
            && (forall v | v != version :: Loaded(metas', segments', id, v) == None)
            && (forall other, v | other != id ::
                  Loaded(metas', segments', other, v) == Loaded(metas, segments, other, v))
  {
    SplitConcatenates(json, bodies, SEGMENT_BYTES);
  }

  class ManifestStore {
    var metas: map<string, Meta>
    /** Bodies per game in `seq` order. */
    var segments: map<string, seq<Text>>

    constructor ()
      ensures metas == map[] && segments == map[]
    {
      metas, segments := map[], map[];
    }

    method Load(id: string, version: string) returns (json: Option<Text>)
      ensures json == Loaded(metas, segments, id, version)
      ensures json.Some? ==> json.value != [] && id in metas && metas[id].version == version
      ensures id in metas && metas[id].version == version && (id !in segments || segments[id] == [])
              ==> (json.Some? <==> metas[id].legacy != []) && (json.Some? ==> json.value == metas[id].legacy)
      ensures id in metas && metas[id].version == version && id in segments && segments[id] != []
              ==> (json.Some? <==> Concat(segments[id]) != []) && (json.Some? ==> json.value == Concat(segments[id]))
    {
      if id !in metas || metas[id].version != version {
        return None;
      }
      var text := [];
      if id !in segments || segments[id] == [] {
        text := metas[id].legacy;
      } else {
        var bodies := segments[id];
        for k := 0 to |bodies|
          invariant text == Concat(bodies[..k])
        {
          assert bodies[..k + 1][..k] == bodies[..k];
          text := text + bodies[k];
        }
        assert bodies[..|bodies|] == bodies;
      }
      return if text == [] then None else Some(text);
    }

    /** One transaction. The serialised list is never empty. */
    method Store(id: string, version: string, json: Text)
      requires IsUtf8(json) && json != []
      modifies this
      ensures Loaded(metas, segments, id, version) == Some(json)
      ensures forall v | v != version :: Loaded(metas, segments, id, v) == None
      ensures forall other, v | other != id ::
                Loaded(metas, segments, other, v) == Loaded(old(metas), old(segments), other, v)
      ensures id in segments && IsSplit(json, segments[id], 4_194_304)
      ensures metas == old(metas)[id := Meta(version, [])] && segments - {id} == old(segments) - {id}
    {
      var bodies := SplitSegments(json, SEGMENT_BYTES);
      metas := metas[id := Meta(version, [])];
      segments := segments - {id};
      segments := segments[id := []];
      for k := 0 to |bodies|
        invariant metas == old(metas)[id := Meta(version, [])]
        invariant segments == old(segments)[id := bodies[..k]]
      {
        assert bodies[..k + 1] == bodies[..k] + [bodies[k]];
        segments := segments[id := segments[id] + [bodies[k]]];
      }
      assert bodies[..|bodies|] == bodies;
      StoredLoads(old(metas), old(segments), id, version, json, bodies);
    }
  }
}
