// A strict writer of the ustar interchange format (IEEE Std 1003.1-2017, utility pax, "ustar Interchange Format"),
// and the proof that the preflight accepts whatever it writes.
module TarWriter {
  import opened TarFields
  import opened TarPreflight

  datatype Member = Member(prefix: Bytes, name: Bytes, directory: bool, mode: nat, uid: nat, gid: nat, mtime: nat, uname: Bytes, gname: Bytes, data: Bytes)

  predicate Fits(m: Member) { |m.name| <= 100 && |m.prefix| <= 155 && |m.uname| <= 32 && |m.gname| <= 32 }

  // The member fits its fields, and its path is normal; a directory may close it with a slash.
  ghost predicate Strict(m: Member, path: Bytes) {
    && Fits(m) && Printable(m.name) && Printable(m.prefix) && Printable(m.uname) && Printable(m.gname)
    && m.mode < Power8(7) && m.uid < Power8(7) && m.gid < Power8(7) && m.mtime < Power8(11) && |m.data| < Power8(11)
    && (m.directory ==> m.data == [])
    && Normal(path) && (path == [DOT] ==> m.directory)
    && (RawPath(m.prefix, m.name) == path || (m.directory && RawPath(m.prefix, m.name) == path + [SLASH]))
  }

  function Text(s: Bytes, width: nat): (f: Bytes)
    requires |s| <= width
    ensures |f| == width
  {
    s + Zeros(width - |s|)
  }

  function Number(n: nat, width: nat): (f: Bytes)
    requires width > 0
    ensures |f| == width
  {
    Print(n, width - 1) + [0]
  }

  function Front(m: Member): (f: Bytes)
    requires |m.name| <= 100
    ensures |f| == 148
  {
    Text(m.name, 100) + Number(m.mode, 8) + Number(m.uid, 8) + Number(m.gid, 8) + Number(|m.data|, 12) + Number(m.mtime, 12)
  }

  function TypeAndLink(m: Member): (f: Bytes)
    ensures |f| == 101
  {
    [if m.directory then 0x35 else 0x30] + Zeros(100)
  }

  function Back(m: Member): (f: Bytes)
    requires |m.uname| <= 32 && |m.gname| <= 32 && |m.prefix| <= 155
    ensures |f| == 356
  {
    TypeAndLink(m) + USTAR + Text(m.uname, 32) + Text(m.gname, 32) + Number(0, 8) + Number(0, 8) + Text(m.prefix, 155) + Zeros(12)
  }

  function Header(m: Member): (h: Bytes)
    requires Fits(m)
    ensures |h| == BLOCK
  {
    Front(m) + (Print(Sum(Front(m) + seq(8, _ => 0x20) + Back(m)), 6) + [0, 0x20]) + Back(m)
  }

  function Written(m: Member): Entry
    requires Fits(m)
  {
    Entry(Header(m), m.data)
  }

  /* ---- the fields come back ---- */

  lemma NumberReads(n: nat, width: nat)
    requires width > 1 && n < Power8(width - 1)
    ensures TarOctal(Number(n, width)) == Ok(n)
  {
    PrintedReads(n, width - 1, [0]);
  }

  lemma TextReads(s: Bytes, width: nat)
    requires |s| <= width && Printable(s)
    ensures TarString(Text(s, width)) == Ok(s)
  {
    TarStringReads(Text(s, width), s);
  }

  lemma FrontFields(m: Member)
    requires |m.name| <= 100
    ensures var f := Front(m);
            && f[0..100] == Text(m.name, 100) && f[100..108] == Number(m.mode, 8) && f[108..116] == Number(m.uid, 8)
            && f[116..124] == Number(m.gid, 8) && f[124..136] == Number(|m.data|, 12) && f[136..148] == Number(m.mtime, 12)
  {}

  lemma BackFields(m: Member)
    requires |m.uname| <= 32 && |m.gname| <= 32 && |m.prefix| <= 155
    ensures var b := Back(m);
            && b[0] == (if m.directory then 0x35 else 0x30) && b[1..101] == Zeros(100) && b[101..109] == USTAR
            && b[109..141] == Text(m.uname, 32) && b[141..173] == Text(m.gname, 32) && b[173..181] == Number(0, 8) && b[181..189] == Number(0, 8)
            && b[189..344] == Text(m.prefix, 155) && b[344..356] == Zeros(12)
  {
    assert Back(m)[1..101] == TypeAndLink(m)[1..];
  }

  lemma HeaderParts(m: Member)
    requires Fits(m)
    ensures var h := Header(m);
            && h[..148] == Front(m) && h[156..] == Back(m) && h[148..156] == Print(Sum(Blanked(h)), 6) + [0, 0x20]
  {
    var h := Header(m);
    assert h[..148] == Front(m) && h[156..] == Back(m);
    assert Blanked(h) == Front(m) + seq(8, _ => 0x20) + Back(m);
  }

  lemma FrontOfHeader(h: Bytes, i: nat, j: nat)
    requires |h| == BLOCK && i <= j <= 148
    ensures h[i..j] == h[..148][i..j]
  {}

  lemma BackOfHeader(h: Bytes, i: nat, j: nat)
    requires |h| == BLOCK && i <= j <= 356
    ensures h[156 + i..156 + j] == h[156..][i..j]
  {
    assert forall k :: 0 <= k < j - i ==> h[156 + i..156 + j][k] == h[156..][i..j][k];
  }

  lemma {:induction false} SumBounded(s: Bytes)
    ensures Sum(s) <= 255 * |s|
  {
    if |s| > 0 { SumBounded(s[..|s| - 1]); }
  }

  lemma NumbersRead(m: Member)
    requires Fits(m)
    requires m.mode < Power8(7) && m.uid < Power8(7) && m.gid < Power8(7) && m.mtime < Power8(11) && |m.data| < Power8(11)
    ensures var h := Header(m);
            && TarOctal(h[100..108]).Ok? && TarOctal(h[108..116]).Ok? && TarOctal(h[116..124]).Ok? && TarOctal(h[136..148]).Ok?
            && TarOctal(h[124..136]) == Ok(|m.data|) && TarOctal(h[148..156]) == Ok(Sum(Blanked(h)))
  {
    hide TarOctal, Header, Front, Back, Number, Sum, Print;
    var h := Header(m);
    HeaderParts(m);
    FrontFields(m);
    NumberReads(m.mode, 8);
    NumberReads(m.uid, 8);
    NumberReads(m.gid, 8);
    NumberReads(|m.data|, 12);
    NumberReads(m.mtime, 12);
    FrontOfHeader(h, 100, 108);
    FrontOfHeader(h, 108, 116);
    FrontOfHeader(h, 116, 124);
    FrontOfHeader(h, 124, 136);
    FrontOfHeader(h, 136, 148);
    SumBounded(Blanked(h));
    assert Power8(6) == 262144;
    PrintedReads(Sum(Blanked(h)), 6, [0, 0x20]);
  }

  lemma TextsRead(m: Member)
    requires Fits(m)
    requires Printable(m.name) && Printable(m.uname) && Printable(m.gname) && Printable(m.prefix)
    ensures var h := Header(m);
            && TarString(h[0..100]) == Ok(m.name) && TarString(h[345..500]) == Ok(m.prefix)
            && TarString(h[265..297]).Ok? && TarString(h[297..329]).Ok? && TarString(h[157..257]) == Ok([])
            && h[156] == (if m.directory then 0x35 else 0x30)
  {
    hide TarString, Header, Front, Back, Text;
    var h := Header(m);
    HeaderParts(m);
    FrontFields(m);
    BackFields(m);
    TextReads(m.name, 100);
    TextReads(m.prefix, 155);
    TextReads(m.uname, 32);
    TextReads(m.gname, 32);
    TarStringReads(Zeros(100), []);
    assert [] + Zeros(100) == Zeros(100);
    FrontOfHeader(h, 0, 100);
    BackOfHeader(h, 189, 344);
    BackOfHeader(h, 109, 141);
    BackOfHeader(h, 141, 173);
    BackOfHeader(h, 1, 101);
    assert h[156] == h[156..][0];
  }

  lemma MarksRead(m: Member)
    requires Fits(m)
    ensures var h := Header(m);
            && h[257..265] == USTAR && Zero(h[500..512]) && TarOptionalOctal(h[329..337]).Ok? && TarOptionalOctal(h[337..345]).Ok?
  {
    hide TarOctal, Header, Front, Back;
    var h := Header(m);
    HeaderParts(m);
    BackFields(m);
    assert Power8(7) > 0;
    NumberReads(0, 8);
    BackOfHeader(h, 101, 109);
    BackOfHeader(h, 173, 181);
    BackOfHeader(h, 181, 189);
    BackOfHeader(h, 344, 356);
  }

  // What the strict writer writes for a member is a valid entry with the member's path, kind and data.
  lemma WrittenIsRead(m: Member, path: Bytes)
    requires Strict(m, path)
    ensures EntryOk(Written(m)) && Identify(Written(m).header) == Ok(Identity(path, m.directory)) && Written(m).data == m.data
  {
    hide TarOctal, TarString, Header, NormalPath, Normal, TarOptionalOctal, Sum;
    NumbersRead(m);
    TextsRead(m);
    MarksRead(m);
    NormalPathAccepts(path, m.directory);
  }

  /* ---- whole archives ---- */

  function WrittenAll(members: seq<Member>): seq<Entry>
    requires forall i :: 0 <= i < |members| ==> Fits(members[i])
  {
    seq(|members|, i requires 0 <= i < |members| => Written(members[i]))
  }

  // Every archive a strict writer makes of members with distinct normal paths, closed by two zero blocks or more, passes the
  // preflight and is read back as exactly these members.
  lemma StrictArchivesAreAccepted(members: seq<Member>, paths: seq<Bytes>, closing: nat)
    requires |paths| == |members| && closing >= 2
    requires forall i :: 0 <= i < |members| ==> Fits(members[i]) && Strict(members[i], paths[i])
    requires forall i, j :: 0 <= i < j < |paths| ==> paths[i] != paths[j]
    ensures Verdict(Tile(WrittenAll(members)) + Zeros(closing * BLOCK)) == Ok(WrittenAll(members))
    ensures forall i :: 0 <= i < |members| ==> EntryOk(WrittenAll(members)[i]) && PathOf(WrittenAll(members)[i]) == paths[i] && WrittenAll(members)[i].data == members[i].data
  {
    hide Strict, Identify, SizeOf, Header, Verdict, EntryOk;
    var entries := WrittenAll(members);
    forall i | 0 <= i < |members| ensures EntryOk(entries[i]) && PathOf(entries[i]) == paths[i] { WrittenIsRead(members[i], paths[i]); }
    TileBlocks(entries);
    var archive := Tile(entries) + Zeros(closing * BLOCK);
    assert Tiled(archive, {}, entries);
    AcceptedExactlyWhenTiled(archive);
  }
}
