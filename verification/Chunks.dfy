/** What the manifest says of a file and what the server sends of it: the hashing pass
    (`hash_file_blocking` in src/manifest.rs), the chunk server and the range server
    (`stream_chunk`, `parse_range`, `stream_file` in src/files.rs). */
module Chunks {
  import opened Text
  import opened Wrappers

  const CHUNK: nat := 0x10_0000
  const U64_MAX: nat := 0xFFFF_FFFF_FFFF_FFFF

  type Bytes = seq<bv8>

  datatype StoredChunk = StoredChunk(index: nat, offset: nat, size: nat, sha256: string)

  datatype StoredFile = StoredFile(size: nat, sha256: string, chunks: seq<StoredChunk>)

  function Min(a: nat, b: nat): nat {
    if a < b then a else b
  }

  /** Where chunk `k` starts. */
  function Start(k: nat): nat {
    k * 0x10_0000
  }

  /** The size in chunks, rounded up. */
  function ChunkCount(size: nat): nat {
    (size + 0xF_FFFF) / 0x10_0000
  }

  /** What a chunk table must say: chunk `k` is the file from there, up to CHUNK bytes. */
  ghost predicate IsTable(content: Bytes, chunks: seq<StoredChunk>, hash: Bytes -> string) {
    |chunks| == ChunkCount(|content|)
    && forall k :: 0 <= k < |chunks| ==> IsChunk(content, chunks[k], k, hash)
  }

  ghost predicate IsChunk(content: Bytes, c: StoredChunk, k: nat, hash: Bytes -> string) {
    c.index == k && c.offset == Start(k) && c.offset < |content| && c.size == Min(CHUNK, |content| - c.offset)
    && c.sha256 == hash(content[c.offset..c.offset + c.size])
  }

  method HashFile(content: Bytes, hash: Bytes -> string) returns (f: StoredFile)
    ensures f.size == |content| && f.sha256 == hash(content) && IsTable(content, f.chunks, hash)
  {
    var fed: Bytes, chunks: seq<StoredChunk> := [], [];
    var offset, index := 0, 0;
    while offset < |content|
      invariant offset == Min(Start(index), |content|) && index == |chunks| && fed == content[..offset]
      invariant offset < |content| ==> index <= ChunkCount(|content|)
      invariant offset == |content| ==> index == ChunkCount(|content|)
      invariant forall k :: 0 <= k < |chunks| ==> IsChunk(content, chunks[k], k, hash)
    {
      var want := Min(CHUNK, |content| - offset);
      var buf := content[offset..offset + want];
      fed := fed + buf;
      chunks := chunks + [StoredChunk(index, offset, want, hash(buf))];
      offset := offset + want;
      index := index + 1;
    }
    assert content[..|content|] == content;
    f := StoredFile(|content|, hash(fed), chunks);
  }

  lemma NextChunk(content: Bytes, chunks: seq<StoredChunk>, hash: Bytes -> string, k: nat)
    requires IsTable(content, chunks, hash) && k < |chunks| - 1
    ensures chunks[k].size == CHUNK && chunks[k].offset + chunks[k].size == chunks[k + 1].offset
  {
    assert IsChunk(content, chunks[k], k, hash) && IsChunk(content, chunks[k + 1], k + 1, hash);
  }

  lemma LastChunk(content: Bytes, chunks: seq<StoredChunk>, hash: Bytes -> string)
    requires IsTable(content, chunks, hash) && chunks != []
    ensures chunks[0].offset == 0
    ensures var last := chunks[|chunks| - 1];
            0 < last.size <= CHUNK && last.offset + last.size == |content| && last.offset == Start(|chunks| - 1)
  {
    assert IsChunk(content, chunks[0], 0, hash) && IsChunk(content, chunks[|chunks| - 1], |chunks| - 1, hash);
  }

  /** The table covers the file without gap or overlap, and every chunk but the last is full. */
  lemma TableTiles(content: Bytes, chunks: seq<StoredChunk>, hash: Bytes -> string)
    requires IsTable(content, chunks, hash)
    ensures chunks == [] <==> content == []
    ensures chunks != [] ==> chunks[0].offset == 0
    ensures forall k :: 0 <= k < |chunks| - 1 ==> chunks[k].size == CHUNK
    ensures forall k :: 0 <= k < |chunks| - 1 ==> chunks[k].offset + chunks[k].size == chunks[k + 1].offset
    ensures chunks != []
            ==> var last := chunks[|chunks| - 1]; 0 < last.size <= CHUNK && last.offset + last.size == |content|
    ensures SizeSum(chunks) == |content|
  {
    forall k | 0 <= k < |chunks| - 1
      ensures chunks[k].size == CHUNK && chunks[k].offset + chunks[k].size == chunks[k + 1].offset
    {
      NextChunk(content, chunks, hash, k);
    }
    if chunks != [] {
      LastChunk(content, chunks, hash);
      FullSum(chunks[..|chunks| - 1]);
    }
  }

  function SizeSum(chunks: seq<StoredChunk>): nat {
    if chunks == [] then 0 else SizeSum(chunks[..|chunks| - 1]) + chunks[|chunks| - 1].size
  }

  lemma {:induction false} FullSum(chunks: seq<StoredChunk>)
    requires forall k :: 0 <= k < |chunks| ==> chunks[k].size == CHUNK
    ensures SizeSum(chunks) == Start(|chunks|)
  {
    if chunks != [] {
      FullSum(chunks[..|chunks| - 1]);
    }
  }

  // ------------------------------------------------------------ serving chunks

  /** A product that stops at the largest 64-bit number. */
  function SaturatingStart(k: nat): nat {
    Min(Start(k), U64_MAX)
  }

  datatype ServeError = OutOfRange

  /** The chunk server. A file's length fits 64 bits; the index may be anything. */
  function StreamChunk(content: Bytes, k: nat): (r: Result<Bytes, ServeError>) {
    var start := SaturatingStart(k);
    if start >= |content| then Err(OutOfRange)
    else Ok(content[start..start + Min(CHUNK, |content| - start)])
  }

  /** The chunk server sends index `k` exactly if the table has a chunk `k`, and then
      exactly the bytes whose hash the table holds; every other index, however large,
      is refused. */
  lemma ServesWhatWasHashed(content: Bytes, chunks: seq<StoredChunk>, hash: Bytes -> string, k: nat)
    requires |content| <= U64_MAX && IsTable(content, chunks, hash)
    ensures StreamChunk(content, k).Ok? <==> k < |chunks|
    ensures k < |chunks| ==> |StreamChunk(content, k).value| == chunks[k].size
                             && hash(StreamChunk(content, k).value) == chunks[k].sha256
  {
    if k < |chunks| {
      assert IsChunk(content, chunks[k], k, hash);
    } else {
      assert Start(k) >= |content|;
    }
  }

  /** The served chunks, one after another. */
  function Fetched(content: Bytes, n: nat): Bytes {
    if n == 0 then []
    else
      var r := StreamChunk(content, n - 1);
      Fetched(content, n - 1) + if r.Ok? then r.value else []
  }

  lemma {:induction false} FetchedSoFar(content: Bytes, n: nat)
    requires |content| <= U64_MAX && n <= ChunkCount(|content|)
    ensures Fetched(content, n) == content[..Min(Start(n), |content|)]
  {
    if n > 0 {
      FetchedSoFar(content, n - 1);
      NextBytes(content, n - 1);
    }
  }

  lemma NextBytes(content: Bytes, k: nat)
    requires |content| <= U64_MAX && k < ChunkCount(|content|)
    ensures StreamChunk(content, k).Ok?
    ensures content[..Min(Start(k), |content|)] + StreamChunk(content, k).value
            == content[..Min(Start(k + 1), |content|)]
  {
    assert Start(k) < |content| && Start(k + 1) == Start(k) + CHUNK;
  }

  /** Fetching every chunk of the table in order rebuilds the file. */
  lemma FetchingRebuildsTheFile(content: Bytes, chunks: seq<StoredChunk>, hash: Bytes -> string)
    requires |content| <= U64_MAX && IsTable(content, chunks, hash)
    ensures Fetched(content, |chunks|) == content
  {
    FetchedSoFar(content, |chunks|);
    assert content[..|content|] == content;
  }

  // ------------------------------------------------------------ serving ranges

  datatype RangeError = BadUnit | BadRange | BadNumber | BadSuffix | NotSatisfiable

  predicate IsDigit(c: char) {
    '0' <= c <= '9'
  }

  function DigitValue(c: char): nat
    requires IsDigit(c)
  {
    c as int - '0' as int
  }

  function Decimal(digits: string): nat
    requires forall i :: 0 <= i < |digits| ==> IsDigit(digits[i])
  {
    if digits == "" then 0 else Decimal(digits[..|digits| - 1]) * 10 + DigitValue(digits[|digits| - 1])
  }

  /** The library's reading of an unsigned 64-bit number: digits, perhaps after a plus. */
  function ParseU64(s: string): Option<nat> {
    var digits := if s != "" && s[0] == '+' then s[1..] else s;
    if digits == "" || exists i :: 0 <= i < |digits| && !IsDigit(digits[i]) then None
    else if Decimal(digits) > U64_MAX then None
    else Some(Decimal(digits))
  }

  /** The text before the first `c`, or all of it. */
  function Before(s: string, c: char): string {
    if s == "" || s[0] == c then "" else [s[0]] + Before(s[1..], c)
  }

  function SaturatingSub(a: nat, b: nat): nat {
    if a < b then 0 else a - b
  }

  const UNIT := "bytes="

  function ParseRange(header: Option<string>, size: nat): Result<Option<(nat, nat)>, RangeError> {
    if header.None? then Ok(None)
    else if !(UNIT <= header.value) then Err(BadUnit)
    else
      var spec := Trim(Before(header.value[|UNIT|..], ','));
      var first := Before(spec, '-');
      if |first| >= |spec| then Err(BadRange)
      else
        var second := spec[|first| + 1..];
        if first == "" then
          match ParseU64(second)
          case None => Err(BadNumber)
          case Some(n) => if n == 0 then Err(BadSuffix) else Ok(Some((SaturatingSub(size, n), SaturatingSub(size, 1))))
        else
          match ParseU64(first)
          case None => Err(BadNumber)
          case Some(start) =>
            if second != "" && ParseU64(second).None? then Err(BadNumber)
            else
              var end := if second == "" then SaturatingSub(size, 1) else ParseU64(second).value;
              if start >= size || end < start then Err(NotSatisfiable)
              else Ok(Some((start, Min(end, SaturatingSub(size, 1)))))
  }

  datatype Reply = Reply(partial: bool, start: nat, end: nat, length: nat, body: Bytes)

  /** Reading `n` bytes from a position, as far as the file goes. */
  function Taken(content: Bytes, start: nat, n: nat): Bytes {
    var from := Min(start, |content|);
    content[from..from + Min(n, |content| - from)]
  }

  function StreamFile(content: Bytes, header: Option<string>): Result<Reply, RangeError> {
    var parsed := ParseRange(header, |content|);
    if parsed.Err? then Err(parsed.error)
    else
      var (start, end) := if parsed.value.Some? then parsed.value.value else (0, SaturatingSub(|content|, 1));
      var length := if |content| == 0 then 0 else Min(SaturatingSub(end, start) + 1, U64_MAX);
      Ok(Reply(parsed.value.Some?, start, end, length, Taken(content, start, length)))
  }

  /** An accepted range lies within the file. */
  lemma AcceptedRangeFits(header: Option<string>, size: nat)
    ensures var r := ParseRange(header, size);
            r.Ok? && r.value.Some? && size > 0 ==> r.value.value.0 <= r.value.value.1 < size
    ensures var r := ParseRange(header, 0); r.Ok? && r.value.Some? ==> r.value.value == (0, 0)
  {
  }

  /** A number as it is written. */
  function Digits(n: nat): (s: string)
    ensures s != "" && forall i :: 0 <= i < |s| ==> IsDigit(s[i])
  {
    var last := [('0' as int + n % 10) as char];
    if n < 10 then last else Digits(n / 10) + last
  }

  lemma {:induction false} DigitsReadBack(n: nat)
    ensures Decimal(Digits(n)) == n
  {
    var s := Digits(n);
    assert DigitValue(s[|s| - 1]) == n % 10;
    if n >= 10 {
      DigitsReadBack(n / 10);
      assert s[..|s| - 1] == Digits(n / 10);
    } else {
      assert s[..|s| - 1] == "";
    }
  }

  lemma NumberIsParsed(n: nat)
    requires n <= U64_MAX
    ensures ParseU64(Digits(n)) == Some(n)
  {
    DigitsReadBack(n);
  }

  lemma {:induction false} BeforeFirst(s: string, c: char, rest: string)
    requires c !in s && (rest == "" || rest[0] == c)
    ensures Before(s + rest, c) == s
  {
    if s != "" {
      assert (s + rest)[1..] == s[1..] + rest;
      BeforeFirst(s[1..], c, rest);
    } else {
      assert s + rest == rest;
    }
  }

  lemma TrimKeeps(s: string)
    requires s != "" && !IsWhitespace(s[0]) && !IsWhitespace(s[|s| - 1])
    ensures Trim(s) == s
  {
  }

  /** The header names one range, or several of which the first counts. */
  function Asked(first: string, second: string, more: string): Option<string> {
    Some("bytes=" + first + "-" + second + more)
  }

  lemma AskedIsRead(first: string, second: string, more: string)
    requires forall i :: 0 <= i < |first| ==> IsDigit(first[i])
    requires forall i :: 0 <= i < |second| ==> IsDigit(second[i])
    requires more == "" || more[0] == ','
    ensures var header := Asked(first, second, more).value;
            var spec := Trim(Before(header[|UNIT|..], ','));
            && UNIT <= header && spec == first + "-" + second && Before(spec, '-') == first
            && spec[|first| + 1..] == second
  {
    var header, spec := Asked(first, second, more).value, first + "-" + second;
    assert header[|UNIT|..] == spec + more;
    BeforeFirst(spec, ',', more);
    TrimKeeps(spec);
    assert spec == first + ("-" + second);
    BeforeFirst(first, '-', "-" + second);
  }

  /** "a-b" is the bytes from a to b, as far as the file goes; it is refused exactly if the
      file does not reach a, or b is before a. */
  lemma RangeFromTo(a: nat, b: nat, more: string, size: nat)
    requires a <= U64_MAX && b <= U64_MAX && (more == "" || more[0] == ',')
    ensures ParseRange(Asked(Digits(a), Digits(b), more), size)
            == if a < size && a <= b then Ok(Some((a, if b < size then b else size - 1))) else Err(NotSatisfiable)
  {
    NumberIsParsed(a);
    NumberIsParsed(b);
    AskedIsRead(Digits(a), Digits(b), more);
  }

  /** "a-" is the bytes from a on. */
  lemma RangeFrom(a: nat, more: string, size: nat)
    requires a <= U64_MAX && (more == "" || more[0] == ',')
    ensures ParseRange(Asked(Digits(a), "", more), size)
            == if a < size then Ok(Some((a, size - 1))) else Err(NotSatisfiable)
  {
    NumberIsParsed(a);
    AskedIsRead(Digits(a), "", more);
  }

  /** "-n" is the last n bytes, or all of a shorter file; no last bytes are refused. */
  lemma RangeOfLast(n: nat, more: string, size: nat)
    requires n <= U64_MAX && (more == "" || more[0] == ',') && size > 0
    ensures ParseRange(Asked("", Digits(n), more), size)
            == if n == 0 then Err(BadSuffix) else Ok(Some((if n < size then size - n else 0, size - 1)))
  {
    NumberIsParsed(n);
    AskedIsRead("", Digits(n), more);
  }

  /** Without a header the whole file is sent; one that is not in bytes is refused. */
  lemma RangeHeaderIsOptional(header: Option<string>, size: nat)
    ensures ParseRange(header, size) == Ok(None) <==> header.None?
    ensures header.Some? && !("bytes=" <= header.value) ==> ParseRange(header, size) == Err(BadUnit)
  {
  }

  /** Whatever is asked for, the announced length is the number of bytes sent, which are
      the announced part of the file; of an empty file, nothing. */
  lemma LengthIsWhatIsSent(content: Bytes, header: Option<string>)
    requires |content| <= U64_MAX
    ensures var r := StreamFile(content, header);
            r.Ok? ==> && r.value.length == |r.value.body|
                      && (content != [] ==> r.value.start <= r.value.end < |content|
                                            && r.value.body == content[r.value.start..r.value.end + 1])
                      && (content == [] ==> r.value.body == [])
                      && (!r.value.partial ==> r.value.body == content)
    ensures var r, asked := StreamFile(content, header), ParseRange(header, |content|);
            && (r.Err? <==> asked.Err?) && (r.Err? ==> r.error == asked.error)
            && (r.Ok? ==> (r.value.partial <==> asked.value.Some?))
            && (r.Ok? && r.value.partial ==> (r.value.start, r.value.end) == asked.value.value)
  {
    AcceptedRangeFits(header, |content|);
    assert content[..|content|] == content;
  }
}
