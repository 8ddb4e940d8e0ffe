// The preflight of a release archive: a single pass over the blocks of an uncompressed ustar file.
module TarPreflight {
  import opened TarFields

  const BLOCK := 512

  // What a header says about its member.
  datatype Identity = Identity(path: Bytes, directory: bool)

  datatype Entry = Entry(header: Bytes, data: Bytes)

  function Sum(s: Bytes): nat { if |s| == 0 then 0 else Sum(s[..|s| - 1]) + s[|s| - 1] as int }

  // The checksum counts its own field as blanks.
  function Blanked(header: Bytes): (s: Bytes)
    requires |header| == BLOCK
    ensures |s| == BLOCK
  {
    header[..148] + seq(8, _ => 0x20) + header[156..]
  }

  const USTAR: Bytes := [0x75, 0x73, 0x74, 0x61, 0x72, 0, 0x30, 0x30]

  function CheckedHeader(header: Bytes): Result<bool>
    requires |header| == BLOCK
  {
    if header[257..265] != USTAR then Err(EncodingUnsupported)
    else
      var expected :- TarOctal(header[148..156]);
      if Sum(Blanked(header)) != expected then Err(ChecksumMismatch)
      else
        var mode :- TarOctal(header[100..108]);
        var uid :- TarOctal(header[108..116]);
        var gid :- TarOctal(header[116..124]);
        var mtime :- TarOctal(header[136..148]);
        var uname :- TarString(header[265..297]);
        var gname :- TarString(header[297..329]);
        var major :- TarOptionalOctal(header[329..337]);
        var minor :- TarOptionalOctal(header[337..345]);
        if !Zero(header[500..512]) then Err(EncodingUnsupported) else Ok(true)
  }

  function RawPath(prefix: Bytes, name: Bytes): Bytes { if prefix == [] then name else prefix + [SLASH] + name }

  function Identify(header: Bytes): Result<Identity>
    requires |header| == BLOCK
  {
    var checked :- CheckedHeader(header);
    if header[156] !in {0, 0x30, 0x35} then Err(TypeInvalid)
    else
      var link :- TarString(header[157..257]);
      if link != [] then Err(TypeInvalid)
      else
        var prefix :- TarString(header[345..500]);
        var name :- TarString(header[0..100]);
        var path :- NormalPath(RawPath(prefix, name), header[156] == 0x35);
        Ok(Identity(path, header[156] == 0x35))
  }

  function SizeOf(header: Bytes): Result<nat>
    requires |header| == BLOCK
  {
    var size :- TarOctal(header[124..136]);
    if header[156] == 0x35 && size != 0 then Err(HeaderInvalid) else Ok(size)
  }

  function Padded(size: nat): (n: nat)
    ensures n % BLOCK == 0 && size <= n < size + BLOCK
  {
    var blocks := (size + BLOCK - 1) / BLOCK;
    Multiple(blocks);
    blocks * BLOCK
  }

  lemma {:induction false} Multiple(blocks: nat)
    ensures blocks * BLOCK % BLOCK == 0
  {
    if blocks > 0 {
      Multiple(blocks - 1);
      assert blocks * BLOCK == (blocks - 1) * BLOCK + BLOCK;
    }
  }

  // The member at the front of the rest of an archive.
  function First(rest: Bytes, seen: set<Bytes>): (r: Result<Entry>)
    requires |rest| >= BLOCK
    ensures r.Ok? ==> EntryOk(r.value) && BLOCK + Padded(|r.value.data|) <= |rest|
  {
    var header := rest[..BLOCK];
    var id :- Identify(header);
    if id.path in seen then Err(Duplicate)
    else
      var size :- SizeOf(header);
      if BLOCK + Padded(size) > |rest| then Err(Truncated)
      else if !Zero(rest[BLOCK + size..BLOCK + Padded(size)]) then Err(EncodingUnsupported)
      else Ok(Entry(header, rest[BLOCK..BLOCK + size]))
  }

  // Two whole numbers of blocks differ by a whole number of blocks.
  lemma Aligned(length: nat, offset: nat)
    requires length % BLOCK == 0 && offset % BLOCK == 0 && offset <= length
    ensures (length - offset) % BLOCK == 0
  {}

  lemma AlignedSum(offset: nat, size: nat)
    requires offset % BLOCK == 0
    ensures (offset + BLOCK + Padded(size)) % BLOCK == 0
  {}

  // What follows the member at the front.
  function After(rest: Bytes, e: Entry): (r: Bytes)
    requires |rest| % BLOCK == 0 && BLOCK + Padded(|e.data|) <= |rest|
    ensures |r| % BLOCK == 0 && |r| < |rest|
  {
    AlignedSum(0, |e.data|);
    Aligned(|rest|, BLOCK + Padded(|e.data|));
    rest[BLOCK + Padded(|e.data|)..]
  }

  // The members of the rest of an archive, after those whose paths were seen.
  function Parse(rest: Bytes, seen: set<Bytes>): Result<seq<Entry>>
    requires |rest| % BLOCK == 0
  {
    if |rest| == 0 then Err(EndMarkerInvalid)
    else if Zero(rest[..BLOCK]) then (if |rest| < 2 * BLOCK || !Zero(rest[BLOCK..]) then Err(EndMarkerInvalid) else Ok([]))
    else
      var e :- First(rest, seen);
      var entries :- Parse(After(rest, e), seen + {PathOf(e)});
      Ok([e] + entries)
  }

  function Verdict(archive: Bytes): Result<seq<Entry>> {
    if |archive| % BLOCK != 0 then Err(Truncated) else Parse(archive, {})
  }

  /* ---- the archives that are accepted ---- */

  predicate EntryOk(e: Entry) { |e.header| == BLOCK && Identify(e.header).Ok? && SizeOf(e.header) == Ok(|e.data|) }

  function PathOf(e: Entry): Bytes
    requires EntryOk(e)
  {
    Identify(e.header).value.path
  }

  function Block(e: Entry): Bytes { e.header + e.data + Zeros(Padded(|e.data|) - |e.data|) }

  function Tile(entries: seq<Entry>): Bytes { if |entries| == 0 then [] else Block(entries[0]) + Tile(entries[1..]) }

  // Entries with valid headers, pairwise distinct paths and none of the seen ones.
  predicate Members(entries: seq<Entry>, seen: set<Bytes>) {
    && (forall i :: 0 <= i < |entries| ==> EntryOk(entries[i]) && PathOf(entries[i]) !in seen)
    && (forall i, j :: 0 <= i < j < |entries| ==> PathOf(entries[i]) != PathOf(entries[j]))
  }

  // The bytes are exactly these members and at least two closing zero blocks.
  predicate Tiled(rest: Bytes, seen: set<Bytes>, entries: seq<Entry>) {
    && Members(entries, seen) && |rest| >= |Tile(entries)| + 2 * BLOCK && (|rest| - |Tile(entries)|) % BLOCK == 0
    && rest == Tile(entries) + Zeros(|rest| - |Tile(entries)|)
  }

  lemma HeaderIsNotZero(header: Bytes)
    requires |header| == BLOCK && Identify(header).Ok?
    ensures !Zero(header)
  {
    assert header[257..265][0] == header[257];
  }

  lemma {:induction false} ParseIsTiled(rest: Bytes, seen: set<Bytes>)
    requires |rest| % BLOCK == 0
    ensures Parse(rest, seen).Ok? ==> Tiled(rest, seen, Parse(rest, seen).value)
  {
    hide Identify, SizeOf, First, Tiled, EntryOk;
    if Parse(rest, seen).Ok? && !Zero(rest[..BLOCK]) {
      var e := First(rest, seen).value;
      ParseIsTiled(After(rest, e), seen + {PathOf(e)});
      FirstParts(rest, seen);
      Prepended(rest, seen, e, Parse(After(rest, e), seen + {PathOf(e)}).value);
    } else if Parse(rest, seen).Ok? {
      EndIsTiled(rest, seen);
    }
  }

  lemma EndIsTiled(rest: Bytes, seen: set<Bytes>)
    requires |rest| % BLOCK == 0 && |rest| >= 2 * BLOCK && Zero(rest[..BLOCK]) && Zero(rest[BLOCK..])
    ensures Tiled(rest, seen, [])
  {
    assert forall i :: BLOCK <= i < |rest| ==> rest[i] == rest[BLOCK..][i - BLOCK];
    assert forall i :: 0 <= i < BLOCK ==> rest[i] == rest[..BLOCK][i];
    assert rest == Zeros(|rest|);
    assert Tile([]) + Zeros(|rest|) == rest;
  }

  lemma FirstParts(rest: Bytes, seen: set<Bytes>)
    requires |rest| >= BLOCK && First(rest, seen).Ok?
    ensures var e := First(rest, seen).value; var next := BLOCK + Padded(|e.data|);
            && PathOf(e) !in seen && e.header == rest[..BLOCK] && e.data == rest[BLOCK..BLOCK + |e.data|] && Zero(rest[BLOCK + |e.data|..next])
  {
    hide Identify, SizeOf;
  }

  lemma FirstOfBlock(rest: Bytes, seen: set<Bytes>, e: Entry)
    requires EntryOk(e) && PathOf(e) !in seen && BLOCK + Padded(|e.data|) <= |rest|
    requires rest[..BLOCK] == e.header && rest[BLOCK..BLOCK + |e.data|] == e.data && Zero(rest[BLOCK + |e.data|..BLOCK + Padded(|e.data|)])
    ensures First(rest, seen) == Ok(e)
  {
    hide Identify, SizeOf;
  }

  lemma Prepended(rest: Bytes, seen: set<Bytes>, e: Entry, entries: seq<Entry>)
    requires EntryOk(e) && PathOf(e) !in seen
    requires var next := BLOCK + Padded(|e.data|);
             && next <= |rest| && |rest| % BLOCK == 0 && e.header == rest[..BLOCK] && e.data == rest[BLOCK..BLOCK + |e.data|]
             && Zero(rest[BLOCK + |e.data|..next]) && Tiled(rest[next..], seen + {PathOf(e)}, entries)
    ensures Tiled(rest, seen, [e] + entries)
  {
    hide Identify, SizeOf;
    var next, all := BLOCK + Padded(|e.data|), [e] + entries;
    assert all[1..] == entries;
    assert Block(e) == rest[..next];
    assert forall i :: 0 <= i < |entries| ==> PathOf(entries[i]) != PathOf(e);
    assert Members(all, seen);
    assert rest == Block(e) + (Tile(entries) + Zeros(|rest[next..]| - |Tile(entries)|));
  }

  // There is only one way to read an archive that is tiled with members, and the parser finds it.
  lemma {:induction false} TiledIsParsed(rest: Bytes, seen: set<Bytes>, entries: seq<Entry>)
    requires Tiled(rest, seen, entries)
    ensures |rest| % BLOCK == 0 && Parse(rest, seen) == Ok(entries)
  {
    hide Identify, SizeOf, First;
    TileBlocks(entries);
    if |entries| == 0 {
      assert forall i :: 0 <= i < |rest| ==> rest[i] == 0;
    } else {
      var e, next := entries[0], BLOCK + Padded(|entries[0].data|);
      HeaderIsNotZero(e.header);
      FrontBlock(rest, seen, entries);
      FirstOfBlock(rest, seen, e);
      assert rest[next..] == After(rest, e);
      TiledIsParsed(After(rest, e), seen + {PathOf(e)}, entries[1..]);
      assert [e] + entries[1..] == entries;
    }
  }

  // A tiled archive starts with the block of its first member.
  lemma FrontBlock(rest: Bytes, seen: set<Bytes>, entries: seq<Entry>)
    requires Tiled(rest, seen, entries) && |entries| > 0
    ensures var e := entries[0]; var next := BLOCK + Padded(|e.data|);
            && next + 2 * BLOCK <= |rest| && rest[..BLOCK] == e.header && rest[BLOCK..BLOCK + |e.data|] == e.data
            && Zero(rest[BLOCK + |e.data|..next]) && Tiled(rest[next..], seen + {PathOf(e)}, entries[1..])
  {
    hide Identify, SizeOf;
    var e, next := entries[0], BLOCK + Padded(|entries[0].data|);
    var closing := Zeros(|rest| - |Tile(entries)|);
    assert rest == e.header + e.data + Zeros(Padded(|e.data|) - |e.data|) + (Tile(entries[1..]) + closing);
    assert rest[BLOCK + |e.data|..next] == Zeros(Padded(|e.data|) - |e.data|);
    assert rest[next..] == Tile(entries[1..]) + closing;
    RestMembers(entries, seen);
  }

  lemma RestMembers(entries: seq<Entry>, seen: set<Bytes>)
    requires Members(entries, seen) && |entries| > 0
    ensures Members(entries[1..], seen + {PathOf(entries[0])})
  {}

  lemma {:induction false} TileBlocks(entries: seq<Entry>)
    requires forall i :: 0 <= i < |entries| ==> EntryOk(entries[i])
    ensures |Tile(entries)| % BLOCK == 0
  {
    hide Identify, SizeOf;
    if |entries| > 0 { TileBlocks(entries[1..]); }
  }

  // An archive is accepted exactly when it is tiled by members with valid headers and distinct paths and closed by at least
  // two zero blocks; the members it is read as are then the only ones it can be read as.
  lemma AcceptedExactlyWhenTiled(archive: Bytes)
    ensures Verdict(archive).Ok? <==> exists entries :: Tiled(archive, {}, entries)
    ensures forall entries :: Tiled(archive, {}, entries) ==> Verdict(archive) == Ok(entries)
    ensures Verdict(archive).Ok? ==> Tiled(archive, {}, Verdict(archive).value)
  {
    hide Tiled, Parse;
    if |archive| % BLOCK == 0 { ParseIsTiled(archive, {}); }
    forall entries | Tiled(archive, {}, entries) ensures Verdict(archive) == Ok(entries) { TiledIsParsed(archive, {}, entries); }
  }

  // Every member of an accepted archive leads to its own place below the archive's root.
  lemma AcceptedPathsAreNormal(archive: Bytes)
    requires Verdict(archive).Ok?
    ensures var entries := Verdict(archive).value;
            && (forall i :: 0 <= i < |entries| ==> EntryOk(entries[i]) && Normal(PathOf(entries[i])))
            && (forall i, j :: 0 <= i < j < |entries| ==> PathOf(entries[i]) != PathOf(entries[j]))
  {
    hide Normal, NormalPath;
    AcceptedExactlyWhenTiled(archive);
    var entries := Verdict(archive).value;
    forall i | 0 <= i < |entries| ensures EntryOk(entries[i]) && Normal(PathOf(entries[i])) { IdentifiedIsNormal(entries[i].header); }
  }

  lemma IdentifiedIsNormal(header: Bytes)
    requires |header| == BLOCK && Identify(header).Ok?
    ensures Normal(Identify(header).value.path)
  {
    hide Normal, NormalPath;
    var prefix, name := TarString(header[345..500]).value, TarString(header[0..100]).value;
    NormalPathIsNormal(RawPath(prefix, name), header[156] == 0x35);
  }

  /* ---- the pass itself ---- */

  method HeaderSum(header: Bytes) returns (sum: nat)
    requires |header| == BLOCK
    ensures sum == Sum(Blanked(header))
  {
    sum := 0;
    var s := Blanked(header);
    assert s[..0] == [];
    for index := 0 to BLOCK
      invariant sum == Sum(s[..index])
    {
      assert s[..index + 1][..index] == s[..index];
      var value := if 148 <= index < 156 then 0x20 else header[index];
      assert value == s[index];
      sum := sum + value as int;
    }
    assert s[..BLOCK] == s;
  }

  method CheckHeader(header: Bytes) returns (r: Result<bool>)
    requires |header| == BLOCK
    ensures r == CheckedHeader(header)
  {
    if header[257..265] != USTAR { return Err(EncodingUnsupported); }
    var expected :- TarOctal(header[148..156]);
    var actual := HeaderSum(header);
    if actual != expected { return Err(ChecksumMismatch); }
    var mode :- TarOctal(header[100..108]);
    var uid :- TarOctal(header[108..116]);
    var gid :- TarOctal(header[116..124]);
    var mtime :- TarOctal(header[136..148]);
    var uname :- TarString(header[265..297]);
    var gname :- TarString(header[297..329]);
    var major :- TarOptionalOctal(header[329..337]);
    var minor :- TarOptionalOctal(header[337..345]);
    if !Zero(header[500..512]) { return Err(EncodingUnsupported); }
    return Ok(true);
  }

  // The member whose header starts at the offset.
  method ReadMember(archive: Bytes, offset: nat, members: set<Bytes>) returns (r: Result<Entry>)
    requires offset + BLOCK <= |archive|
    ensures r == First(archive[offset..], members)
  {
    hide Identify, SizeOf, CheckedHeader;
    ghost var rest := archive[offset..];
    var header := archive[offset..offset + BLOCK];
    assert rest[..BLOCK] == header;
    var checked := CheckHeader(header);
    IdentifyChecks(header);
    if checked.Err? { return Err(checked.error); }
    var id :- Identify(header);
    if id.path in members { return Err(Duplicate); }
    var size :- SizeOf(header);
    var dataStart := offset + BLOCK;
    var dataEnd, nextHeader := dataStart + size, dataStart + Padded(size);
    if nextHeader > |archive| { return Err(Truncated); }
    assert archive[dataEnd..nextHeader] == rest[BLOCK + size..BLOCK + Padded(size)];
    if !Zero(archive[dataEnd..nextHeader]) { return Err(EncodingUnsupported); }
    assert archive[dataStart..dataEnd] == rest[BLOCK..BLOCK + size];
    return Ok(Entry(header, archive[dataStart..dataEnd]));
  }

  // Walks over the archive once; accepts it or names the first thing that is wrong with it.
  method Preflight(archive: Bytes) returns (r: Result<bool>)
    ensures r == if Verdict(archive).Ok? then Ok(true) else Err(Verdict(archive).error)
  {
    hide First, EntryOk, Parse;
    if |archive| % BLOCK != 0 { return Err(Truncated); }
    var members, offset, sawEnd := {}, 0, false;
    ghost var whole := Parse(archive, {});
    assert archive[0..] == archive;
    while offset < |archive| && !sawEnd
      invariant 0 <= offset <= |archive| && offset % BLOCK == 0
      invariant sawEnd ==> whole.Ok?
      invariant !sawEnd ==> Same(whole, Parse(archive[offset..], members))
      decreases |archive| - offset, !sawEnd
    {
      Aligned(|archive|, offset);
      var rest := archive[offset..];
      var header := archive[offset..offset + BLOCK];
      ParseStep(rest, members);
      assert rest[..BLOCK] == header;
      if Zero(header) {
        if offset + 2 * BLOCK > |archive| || !Zero(archive[offset + BLOCK..]) { return Err(EndMarkerInvalid); }
        sawEnd := true;
      } else {
        var e :- ReadMember(archive, offset, members);
        members := members + {PathOf(e)};
        assert archive[offset + BLOCK + Padded(|e.data|)..] == After(rest, e);
        AlignedSum(offset, |e.data|);
        offset := offset + BLOCK + Padded(|e.data|);
      }
    }
    if !sawEnd {
      ParseEmpty(archive[offset..], members);
      return Err(EndMarkerInvalid);
    }
    return Ok(true);
  }

  // Both accept, or both refuse for one reason.
  predicate Same<A, B>(a: Result<A>, b: Result<B>) { a.Ok? == b.Ok? && (a.Err? ==> a.error == b.error) }

  lemma ParseEmpty(rest: Bytes, seen: set<Bytes>)
    requires |rest| == 0
    ensures Parse(rest, seen) == Err(EndMarkerInvalid)
  {}

  lemma IdentifyChecks(header: Bytes)
    requires |header| == BLOCK
    ensures CheckedHeader(header).Err? ==> Identify(header) == Err(CheckedHeader(header).error)
  {
    hide CheckedHeader;
  }

  // One member further.
  lemma ParseStep(rest: Bytes, seen: set<Bytes>)
    requires |rest| % BLOCK == 0 && |rest| > 0
    ensures var p := Parse(rest, seen);
            if Zero(rest[..BLOCK]) then
              if |rest| < 2 * BLOCK || !Zero(rest[BLOCK..]) then p == Err(EndMarkerInvalid) else p == Ok([])
            else if First(rest, seen).Err? then p == Err(First(rest, seen).error)
            else
              var e := First(rest, seen).value;
              Same(p, Parse(After(rest, e), seen + {PathOf(e)}))
  {
    hide First, Identify, SizeOf;
  }
}
