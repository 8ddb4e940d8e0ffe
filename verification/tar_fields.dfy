// The fields of a ustar header and the normalized path of an archive member.
module TarFields {
  newtype byte = x: int | 0 <= x < 256

  datatype Error = EncodingUnsupported | HeaderInvalid | ChecksumMismatch | TypeInvalid | PathInvalid | Duplicate | Truncated | EndMarkerInvalid

  datatype Result<+T> = Ok(value: T) | Err(error: Error) {
    predicate IsFailure() { Err? }

    function PropagateFailure<U>(): Result<U>
      requires IsFailure()
    {
      Err(error)
    }

    function Extract(): T
      requires !IsFailure()
    {
      value
    }
  }

  type Bytes = seq<byte>

  const SLASH: byte := 0x2f
  const DOT: byte := 0x2e
  const BACKSLASH: byte := 0x5c

  predicate Zero(s: Bytes) { forall i :: 0 <= i < |s| ==> s[i] == 0 }

  predicate Printable(s: Bytes) { forall i :: 0 <= i < |s| ==> 0x20 <= s[i] <= 0x7e }

  function Zeros(n: nat): (s: Bytes)
    ensures |s| == n && Zero(s)
  {
    seq(n, _ => 0)
  }

  /* ---- strings ---- */

  // The bytes before the first NUL; what follows must be NUL too.
  function FirstNul(field: Bytes): (n: nat)
    ensures n <= |field| && (forall i :: 0 <= i < n ==> field[i] != 0) && (n < |field| ==> field[n] == 0)
  {
    if |field| == 0 || field[0] == 0 then 0 else 1 + FirstNul(field[1..])
  }

  function TarString(field: Bytes): Result<Bytes> {
    var n := FirstNul(field);
    if !Zero(field[n..]) || !Printable(field[..n]) then Err(EncodingUnsupported) else Ok(field[..n])
  }

  // A string field is accepted exactly when it is printable text padded with NULs, and it then reads as that text.
  lemma TarStringReads(field: Bytes, text: Bytes)
    ensures TarString(field) == Ok(text) <==> |text| <= |field| && Printable(text) && field == text + Zeros(|field| - |text|)
  {
    var n := FirstNul(field);
    if |text| <= |field| && Printable(text) && field == text + Zeros(|field| - |text|) {
      assert forall i :: 0 <= i < |text| ==> field[i] == text[i] && field[i] != 0;
      assert forall i :: |text| <= i < |field| ==> field[i] == 0;
      assert |text| < |field| ==> field[|text|] == 0;
      assert n == |text|;
      assert field[..n] == text;
    }
    if TarString(field) == Ok(text) {
      assert forall i :: n <= i < |field| ==> field[n..][i - n] == field[i];
      assert field == text + Zeros(|field| - |text|);
    }
  }

  /* ---- octal numbers ---- */

  // Node's ascii decoding drops the high bit of a byte.
  function Ascii(b: byte): byte { if b < 128 then b else b - 128 }

  predicate Blank(b: byte) { b == 0x20 || 0x09 <= b <= 0x0d }

  predicate Octal(b: byte) { 0x30 <= b <= 0x37 }

  function TrimEnd(s: Bytes): (t: Bytes)
    ensures t <= s
  {
    if |s| > 0 && Ascii(s[|s| - 1]) in {0, 0x20} then TrimEnd(s[..|s| - 1]) else s
  }

  function TrimStart(s: Bytes): Bytes {
    if |s| > 0 && Blank(Ascii(s[0])) then TrimStart(s[1..]) else s
  }

  function Digits(s: Bytes): nat
    requires forall i :: 0 <= i < |s| ==> Octal(Ascii(s[i]))
  {
    if |s| == 0 then 0
    else
      assert Octal(Ascii(s[|s| - 1]));
      8 * Digits(s[..|s| - 1]) + (Ascii(s[|s| - 1]) as int - 0x30)
  }

  function TarOctal(field: Bytes): Result<nat>
    requires |field| > 0
  {
    if field[0] >= 0x80 then Err(EncodingUnsupported)
    else
      var s := TrimStart(TrimEnd(field));
      if |s| == 0 || exists i :: 0 <= i < |s| && !Octal(Ascii(s[i])) then Err(HeaderInvalid) else Ok(Digits(s))
  }

  function TarOptionalOctal(field: Bytes): Result<nat>
    requires |field| > 0
  {
    if Zero(field) then Ok(0) else TarOctal(field)
  }

  function Power8(n: nat): nat { if n == 0 then 1 else 8 * Power8(n - 1) }

  lemma {:induction false} DigitsBounded(s: Bytes)
    requires forall i :: 0 <= i < |s| ==> Octal(Ascii(s[i]))
    ensures Digits(s) < Power8(|s|)
  {
    if |s| > 0 { DigitsBounded(s[..|s| - 1]); }
  }

  lemma {:induction false} TrimStartShortens(s: Bytes)
    ensures |TrimStart(s)| <= |s|
  {
    if |s| > 0 && Blank(Ascii(s[0])) { TrimStartShortens(s[1..]); }
  }

  lemma {:induction false} Power8Grows(n: nat, m: nat)
    requires n <= m
    ensures Power8(n) <= Power8(m)
  {
    if n < m { Power8Grows(n, m - 1); }
  }

  // No number of a header field is too large to be exact: twelve octal digits stay far below 2^53.
  lemma TarOctalIsExact(field: Bytes)
    requires 0 < |field| <= 12
    ensures TarOctal(field).Ok? ==> TarOctal(field).value < Power8(12) <= 0x20_0000_0000_0000
  {
    var s := TrimStart(TrimEnd(field));
    TrimStartShortens(TrimEnd(field));
    if TarOctal(field).Ok? {
      DigitsBounded(s);
      Power8Grows(|s|, 12);
    }
    assert Power8(12) == 0x10_0000_0000;
  }

  // The strict form of a number: as many octal digits as fit, and a closing NUL.
  function Print(n: nat, width: nat): (s: Bytes)
    ensures |s| == width && forall i :: 0 <= i < |s| ==> Octal(s[i])
  {
    if width == 0 then [] else Print(n / 8, width - 1) + [0x30 + (n % 8) as byte]
  }

  lemma {:induction false} DigitsPrint(n: nat, width: nat)
    requires n < Power8(width)
    ensures Digits(Print(n, width)) == n
  {
    if width > 0 {
      DigitsPrint(n / 8, width - 1);
      assert Print(n, width)[..width - 1] == Print(n / 8, width - 1);
    }
  }

  // What a strict writer prints is read back as the same number, whatever NULs and blanks close the field.
  lemma {:induction false} PrintedReads(n: nat, width: nat, closing: Bytes)
    requires 0 < width && n < Power8(width) && forall i :: 0 <= i < |closing| ==> closing[i] in {0, 0x20}
    ensures TarOctal(Print(n, width) + closing) == Ok(n)
  {
    var s := Print(n, width);
    if |closing| > 0 {
      assert (s + closing)[..|s + closing| - 1] == s + closing[..|closing| - 1];
      PrintedReads(n, width, closing[..|closing| - 1]);
    } else {
      assert s + closing == s;
      assert TrimEnd(s) == s && TrimStart(s) == s;
      DigitsPrint(n, width);
    }
  }

  /* ---- member paths ---- */

  function Split(path: Bytes): (segments: seq<Bytes>)
    ensures |segments| > 0
  {
    if |path| == 0 then [[]]
    else
      var rest := Split(path[..|path| - 1]);
      if path[|path| - 1] == SLASH then rest + [[]]
      else rest[..|rest| - 1] + [rest[|rest| - 1] + [path[|path| - 1]]]
  }

  function Join(segments: seq<Bytes>): Bytes {
    if |segments| == 0 then []
    else if |segments| == 1 then segments[0]
    else Join(segments[..|segments| - 1]) + [SLASH] + segments[|segments| - 1]
  }

  predicate Plain(segment: Bytes) { segment !in {[], [DOT], [DOT, DOT]} }

  function DropDots(path: Bytes): (p: Bytes)
    ensures |p| <= |path| && !([DOT, SLASH] <= p)
  {
    if [DOT, SLASH] <= path then DropDots(path[2..]) else path
  }

  predicate Acceptable(p: Bytes) {
    p != [] && p[0] != SLASH && BACKSLASH !in p && forall i :: 0 <= i < |Split(p)| ==> Plain(Split(p)[i])
  }

  // The path a member is extracted to, or the reason why it is refused.
  function NormalPath(raw: Bytes, directory: bool): Result<Bytes> {
    if raw == [DOT] || raw == [DOT, SLASH] then (if directory then Ok([DOT]) else Err(PathInvalid))
    else
      var p := DropDots(raw);
      var p := if directory && |p| > 0 && p[|p| - 1] == SLASH then p[..|p| - 1] else p;
      if Acceptable(p) then Ok(p) else Err(PathInvalid)
  }

  // A path that leads to one place below the root of the archive.
  ghost predicate Normal(path: Bytes) {
    || path == [DOT]
    || (BACKSLASH !in path && exists segments :: Segments(segments) && path == Join(segments))
  }

  // A chain of plain names.
  predicate Segments(segments: seq<Bytes>) {
    |segments| > 0 && forall i :: 0 <= i < |segments| ==> Plain(segments[i]) && SLASH !in segments[i]
  }

  lemma JoinEmpty(segments: seq<Bytes>)
    requires |segments| > 0
    ensures Join(segments + [[]]) == Join(segments) + [SLASH]
  {
    assert (segments + [[]])[..|segments|] == segments;
  }

  lemma JoinLonger(segments: seq<Bytes>, last: byte)
    requires |segments| > 0
    ensures Join(segments[..|segments| - 1] + [segments[|segments| - 1] + [last]]) == Join(segments) + [last]
  {
    var n := |segments| - 1;
    var next := segments[..n] + [segments[n] + [last]];
    assert next[..n] == segments[..n];
  }

  lemma {:induction false} SplitJoins(path: Bytes)
    ensures Join(Split(path)) == path
    ensures forall i :: 0 <= i < |Split(path)| ==> SLASH !in Split(path)[i]
  {
    if |path| > 0 {
      var before, last := path[..|path| - 1], path[|path| - 1];
      SplitJoins(before);
      var rest := Split(before);
      if last == SLASH { JoinEmpty(rest); } else { JoinLonger(rest, last); }
      assert path == before + [last];
    }
  }

  lemma {:induction false} SplitAppends(path: Bytes, segment: Bytes)
    requires SLASH !in segment
    ensures Split(path + [SLASH] + segment) == Split(path) + [segment]
  {
    if |segment| == 0 {
      assert path + [SLASH] + segment == path + [SLASH];
      assert (path + [SLASH])[..|path|] == path;
    } else {
      var shorter, all := segment[..|segment| - 1], path + [SLASH] + segment;
      SplitAppends(path, shorter);
      assert all[..|all| - 1] == path + [SLASH] + shorter;
      assert shorter + [segment[|segment| - 1]] == segment;
      assert (Split(path) + [shorter])[..|Split(path)|] == Split(path);
    }
  }

  lemma {:induction false} SplitPlain(segment: Bytes)
    requires SLASH !in segment
    ensures Split(segment) == [segment]
  {
    if |segment| > 0 {
      SplitPlain(segment[..|segment| - 1]);
      assert segment[..|segment| - 1] + [segment[|segment| - 1]] == segment;
    }
  }

  lemma {:induction false} JoinSplits(segments: seq<Bytes>)
    requires |segments| > 0 && forall i :: 0 <= i < |segments| ==> SLASH !in segments[i]
    ensures Split(Join(segments)) == segments
  {
    var n := |segments|;
    if n == 1 {
      SplitPlain(segments[0]);
    } else {
      JoinSplits(segments[..n - 1]);
      SplitAppends(Join(segments[..n - 1]), segments[n - 1]);
      assert segments[..n - 1] + [segments[n - 1]] == segments;
    }
  }

  // Only paths that lead to one place below the archive's root are accepted.
  lemma NormalPathIsNormal(raw: Bytes, directory: bool)
    ensures NormalPath(raw, directory).Ok? ==> Normal(NormalPath(raw, directory).value)
  {
    hide Acceptable;
    if NormalPath(raw, directory).Ok? {
      var p := NormalPath(raw, directory).value;
      if p != [DOT] { AcceptableIsNormal(p); }
    }
  }

  lemma AcceptableIsNormal(p: Bytes)
    requires Acceptable(p)
    ensures Normal(p)
  {
    SplitJoins(p);
    assert Segments(Split(p));
  }

  lemma {:induction false} JoinStarts(segments: seq<Bytes>)
    requires Segments(segments)
    ensures Join(segments) != [] && Join(segments)[0] == segments[0][0] && !([DOT, SLASH] <= Join(segments))
    ensures Join(segments) != [DOT] && Join(segments)[|Join(segments)| - 1] != SLASH
  {
    var n := |segments|;
    if n > 1 { JoinStarts(segments[..n - 1]); }
    SplitStarts(segments);
  }

  lemma SplitStarts(segments: seq<Bytes>)
    requires Segments(segments)
    ensures !([DOT, SLASH] <= Join(segments)) && Join(segments) != [DOT] && Join(segments) != []
  {
    JoinSplits(segments);
    var p := Join(segments);
    if [DOT, SLASH] <= p { FirstSegment(p); }
    if p == [DOT] { SplitPlain(p); }
    assert p == [] ==> Split(p) == [[]];
  }

  lemma {:induction false} FirstSegment(p: Bytes)
    requires [DOT, SLASH] <= p
    ensures Split(p)[0] == [DOT] && |Split(p)| > 1
  {
    if |p| == 2 {
      assert p == [DOT, SLASH] && p[..1] == [DOT];
      SplitPlain([DOT]);
    } else {
      FirstSegment(p[..|p| - 1]);
    }
  }

  // And every such path is accepted as it is, as a file or as a directory with or without its closing slash.
  lemma NormalPathAccepts(path: Bytes, directory: bool)
    requires Normal(path) && (path == [DOT] ==> directory)
    ensures NormalPath(path, directory) == Ok(path)
    ensures directory ==> NormalPath(path + [SLASH], true) == Ok(path)
  {
    if path == [DOT] {
      assert [DOT] + [SLASH] == [DOT, SLASH];
    } else {
      var segments :| Segments(segments) && path == Join(segments);
      JoinSplits(segments);
      JoinStarts(segments);
      var slashed := path + [SLASH];
      assert slashed[..|path|] == path;
      assert [DOT, SLASH][..1] == [DOT];
      assert slashed != [DOT, SLASH];
      assert !([DOT, SLASH] <= slashed) by { assert |path| > 1 ==> slashed[1] == path[1]; }
      assert SLASH !in segments[0];
      assert path[0] != SLASH;
    }
  }
}
