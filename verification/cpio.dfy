/** The newc cpio parser (src/cpio.rs) and the archive encoder of its tests, as inverse of each other. */
module Cpio {
  import opened Wrappers

  type Byte = x: int | 0 <= x < 256
  type Bytes = seq<Byte>

  const USIZE: nat := 0x1_0000_0000_0000_0000
  const U32: nat := 0x1_0000_0000

  const MAGIC: Bytes := [48, 55, 48, 55, 48, 49]                          // "070701"
  const TRAILER: Bytes := [84, 82, 65, 73, 76, 69, 82, 33, 33, 33]        // "TRAILER!!!"

  // ---- hexadecimal fields ----

  function Digit(b: Byte): (d: nat)
    ensures d < 16
  {
    if 48 <= b <= 57 then b - 48
    else if 97 <= b <= 102 then b - 97 + 10
    else if 65 <= b <= 70 then b - 65 + 10
    else 0
  }

  function Hex(s: Bytes): nat {
    if s == [] then 0 else 16 * Hex(s[..|s| - 1]) + Digit(s[|s| - 1])
  }

  function Pow16(n: nat): (p: nat)
    ensures p > 0
  {
    if n == 0 then 1 else 16 * Pow16(n - 1)
  }

  lemma {:induction false} HexBound(s: Bytes)
    ensures Hex(s) < Pow16(|s|)
  {
    if s != [] { HexBound(s[..|s| - 1]); }
  }

  /** parse_hex, for the fixed-width fields it is used on. */
  method ParseHex(s: Bytes) returns (val: nat)
    requires |s| == 8
    ensures val == Hex(s) < U32
  {
    val := 0;
    for i := 0 to |s|
      invariant val == Hex(s[..i])
    {
      assert s[..i + 1][..i] == s[..i];
      val := val * 16 + Digit(s[i]);
    }
    assert s[..|s|] == s;
    HexBound(s);
    assert Pow16(8) == U32;
  }

  /** '0' to '9', then 'A' to 'F' or 'a' to 'f'. */
  function Print(d: nat, upper: bool): Byte
    requires d < 16
  {
    if d < 10 then 48 + d else if upper then 55 + d else 87 + d
  }

  /** The last n hexadecimal digits of v. */
  function HexDigits(v: nat, n: nat, upper: bool): (s: Bytes)
    ensures |s| == n
  {
    if n == 0 then [] else HexDigits(v / 16, n - 1, upper) + [Print(v % 16, upper)]
  }

  /** Printed numbers parse back, in either case; any other byte counts as 0. */
  lemma {:induction false} HexRoundTrip(v: nat, n: nat, upper: bool)
    requires v < Pow16(n)
    ensures Hex(HexDigits(v, n, upper)) == v
    ensures forall b: Byte :: Digit(b) != 0 ==> b == Print(Digit(b), true) || b == Print(Digit(b), false)
  {
    if n > 0 {
      HexRoundTrip(v / 16, n - 1, upper);
      var s := HexDigits(v, n, upper);
      assert s[..n - 1] == HexDigits(v / 16, n - 1, upper);
    }
  }

  // ---- lookup ----

  function Align4(x: nat): (r: nat)
    ensures x <= r < x + 4 && r % 4 == 0
  {
    (x + 3) / 4 * 4
  }

  /** The requested path without a leading "/" or "./". */
  function Strip(path: Bytes): Bytes {
    if [47] <= path then path[1..] else if [46, 47] <= path then path[2..] else path
  }

  /** What the header at `at` says: where name and data lie, or None if it is malformed or does not
      fit the buffer.  The sums are checked for overflow of usize. */
  datatype Found = Found(name: Bytes, start: nat, len: nat)

  function HeaderAt(data: Bytes, at: nat): (o: Option<Found>)
    ensures o.Some? ==> at + 110 <= o.value.start && o.value.start + o.value.len <= |data|
  {
    if at + 110 >= USIZE || at + 110 > |data| then None
    else if data[at..at + 6] != MAGIC then None
    else
      var size, nameSize := Hex(data[at + 54..at + 62]), Hex(data[at + 94..at + 102]);
      if nameSize == 0 then None
      else
        var nameEnd := at + 110 + nameSize - 1;
        if at + 110 + nameSize + 3 >= USIZE then None
        else
          var start := Align4(at + 110 + nameSize);
          if start + size >= USIZE || nameEnd > |data| || start + size > |data| then None
          else Some(Found(data[at + 110..nameEnd], start, size))
  }

  function Find(data: Bytes, name: Bytes, at: nat): (r: Option<(nat, nat)>)
    ensures r.Some? ==> r.value.0 + r.value.1 <= |data|
    decreases |data| + 4 - at
  {
    var h := HeaderAt(data, at);
    if h == None || h.value.name == TRAILER then None
    else if h.value.name == name then Some((h.value.start, h.value.len))
    else if h.value.start + h.value.len + 3 >= USIZE then None
    else Find(data, name, Align4(h.value.start + h.value.len))
  }

  /** The header part of lookup's loop body. */
  method ReadHeader(data: Bytes, at: nat) returns (o: Option<Found>)
    ensures o == HeaderAt(data, at)
  {
    if at + 110 >= USIZE || at + 110 > |data| { return None; }
    if data[at..at + 6] != MAGIC { return None; }
    var size := ParseHex(data[at + 54..at + 62]);
    var nameSize := ParseHex(data[at + 94..at + 102]);
    if nameSize == 0 { return None; }
    if at + 110 + nameSize + 3 >= USIZE { return None; }
    var nameEnd := at + 110 + nameSize - 1;
    var start := Align4(at + 110 + nameSize);
    if start + size >= USIZE || nameEnd > |data| || start + size > |data| { return None; }
    return Some(Found(data[at + 110..nameEnd], start, size));
  }

  /** lookup terminates on arbitrary bytes, and a returned range lies inside the archive. */
  method Lookup(data: Bytes, path: Bytes) returns (r: Option<(nat, nat)>)
    ensures r == Find(data, Strip(path), 0)
    ensures r.Some? ==> r.value.0 + r.value.1 <= |data|
  {
    hide HeaderAt;
    hide Strip;
    hide Align4;
    var name := Strip(path);
    var at: nat := 0;
    while true
      invariant Find(data, name, 0) == Find(data, name, at)
      decreases |data| + 4 - at
    {
      var h := ReadHeader(data, at);
      if h == None { return None; }
      if h.value.name == TRAILER { return None; }
      if h.value.name == name { return Some((h.value.start, h.value.len)); }
      var end := h.value.start + h.value.len;
      if end + 3 >= USIZE { return None; }
      at := Align4(end);
    }
  }

  // ---- malformed archives ----

  /** The bytes at `at` are a header with this name and this much data, all inside the buffer. */
  predicate WellFormed(data: Bytes, at: nat, name: Bytes, start: nat, len: nat) {
    && at + 110 + |name| <= |data| && data[at..at + 6] == MAGIC
    && Hex(data[at + 94..at + 102]) == |name| + 1 && data[at + 110..at + 110 + |name|] == name
    && Hex(data[at + 54..at + 62]) == len && start + len <= |data|
    && at + 110 + |name| + 1 <= start < at + 110 + |name| + 5 && start % 4 == 0
  }

  /** A header is accepted exactly if it is well formed. */
  lemma HeaderIff(data: Bytes, at: nat)
    requires |data| + 8 < USIZE
    ensures forall f: Found :: HeaderAt(data, at) == Some(f) <==> WellFormed(data, at, f.name, f.start, f.len)
  {
    forall f: Found | HeaderAt(data, at) == Some(f) ensures WellFormed(data, at, f.name, f.start, f.len) { NameFits(data, at); }
    forall f: Found | WellFormed(data, at, f.name, f.start, f.len) ensures HeaderAt(data, at) == Some(f) {
      Aligned(at + 110 + |f.name| + 1, f.start);
    }
  }

  lemma HeaderGiven(data: Bytes, at: nat, f: Found)
    requires |data| + 8 < USIZE && WellFormed(data, at, f.name, f.start, f.len)
    ensures HeaderAt(data, at) == Some(f)
  {
    HeaderIff(data, at);
  }

  lemma NameFits(data: Bytes, at: nat)
    requires HeaderAt(data, at).Some?
    ensures |HeaderAt(data, at).value.name| + 1 == Hex(data[at + 94..at + 102])
  {
  }

  lemma Aligned(x: nat, y: nat)
    requires x <= y < x + 4 && y % 4 == 0
    ensures y == Align4(x)
  {
  }

  /** n headers follow one another from `at` to `to`: none is the end mark or has the name looked for, and
      each begins at the first multiple of 4 after the data of the one before. */
  ghost predicate Leads(data: Bytes, name: Bytes, at: nat, to: nat, n: nat)
    decreases n
  {
    if n == 0 then at == to else exists f: Found, next: nat :: Link(data, name, at, f, next) && Leads(data, name, next, to, n - 1)
  }

  predicate Link(data: Bytes, name: Bytes, at: nat, f: Found, next: nat) {
    && WellFormed(data, at, f.name, f.start, f.len) && f.name != TRAILER && f.name != name
    && f.start + f.len <= next < f.start + f.len + 4 && next % 4 == 0
  }

  /** On arbitrary bytes: whatever lookup finds is the data of a well-formed header of that name, reached
      through well-formed headers only. */
  lemma {:induction false} FindSound(data: Bytes, name: Bytes, at: nat) returns (to: nat, n: nat)
    requires |data| + 8 < USIZE && Find(data, name, at).Some?
    ensures Leads(data, name, at, to, n) && name != TRAILER
    ensures WellFormed(data, to, name, Find(data, name, at).value.0, Find(data, name, at).value.1)
    decreases |data| + 4 - at
  {
    HeaderIff(data, at);
    var f := HeaderAt(data, at).value;
    if f.name == name {
      to, n := at, 0;
    } else {
      var next := Align4(f.start + f.len);
      to, n := FindSound(data, name, next);
      n := n + 1;
      assert Link(data, name, at, f, next);
    }
  }

  /** And conversely: a well-formed header of that name so reached is found. */
  lemma {:induction false} FindComplete(data: Bytes, name: Bytes, at: nat, to: nat, n: nat, start: nat, len: nat)
    requires |data| + 8 < USIZE && Leads(data, name, at, to, n) && WellFormed(data, to, name, start, len) && name != TRAILER
    ensures Find(data, name, at) == Some((start, len))
    decreases n
  {
    hide HeaderAt, WellFormed, Find, Align4;
    if n == 0 {
      HeaderGiven(data, at, Found(name, start, len));
      FindStep(data, name, at);
    } else {
      var f: Found, next: nat :| Link(data, name, at, f, next) && Leads(data, name, next, to, n - 1);
      HeaderGiven(data, at, f);
      FindStep(data, name, at);
      Aligned(f.start + f.len, next);
      FindComplete(data, name, next, to, n - 1, start, len);
    }
  }

  // ---- the encoder ----

  datatype File = File(name: Bytes, data: Bytes)

  function Zeros(n: nat): (s: Bytes)
    ensures |s| == n
  {
    seq(n, _ => 48)
  }

  function Pad(n: nat): (s: Bytes)
    ensures |s| == n
  {
    seq(n, _ => 0)
  }

  /** Thirteen 8-digit fields after the magic; the seventh is the file size, the twelfth the name
      size. */
  function Header(f: File): (s: Bytes)
    ensures |s| == 110
  {
    MAGIC + Zeros(48) + HexDigits(|f.data|, 8, true) + Zeros(32) + HexDigits(|f.name| + 1, 8, true) + Zeros(8)
  }

  function NamePart(f: File): (s: Bytes)
    ensures |s| == Align4(110 + |f.name| + 1)
  {
    var h := Header(f) + f.name + [0];
    h + Pad(Align4(|h|) - |h|)
  }

  function Encode(f: File): (s: Bytes)
    ensures |s| == Align4(Align4(110 + |f.name| + 1) + |f.data|)
  {
    var b := NamePart(f) + f.data;
    b + Pad(Align4(|b|) - |b|)
  }

  function Archive(files: seq<File>): Bytes {
    if files == [] then [] else Encode(files[0]) + Archive(files[1..])
  }

  /** Sizes the 8-digit fields can express. */
  predicate Encodable(f: File) {
    |f.name| + 1 < U32 && |f.data| < U32
  }

  // ---- round trip ----

  lemma HeaderFields(f: File)
    requires Encodable(f)
    ensures var h := Header(f);
      h[..6] == MAGIC && Hex(h[54..62]) == |f.data| && Hex(h[94..102]) == |f.name| + 1
  {
    var h := Header(f);
    assert h[54..62] == HexDigits(|f.data|, 8, true);
    assert h[94..102] == HexDigits(|f.name| + 1, 8, true);
    assert Pow16(8) == U32;
    HexRoundTrip(|f.data|, 8, true);
    HexRoundTrip(|f.name| + 1, 8, true);
  }

  lemma EncodeParts(f: File)
    ensures var e, n := Encode(f), |f.name|;
      && e[..110] == Header(f) && e[110..110 + n] == f.name
      && e[Align4(110 + n + 1)..Align4(110 + n + 1) + |f.data|] == f.data
  {
  }

  lemma MiddleSlice(pre: Bytes, e: Bytes, post: Bytes, i: nat, j: nat)
    requires i <= j <= |e|
    ensures (pre + e + post)[|pre| + i..|pre| + j] == e[i..j]
  {
  }

  lemma AlignShift(at: nat, x: nat)
    requires at % 4 == 0
    ensures Align4(at + x) == at + Align4(x)
  {
  }

  /** The fields of an encoded file, wherever it lies. */
  lemma EncodedFields(f: File)
    requires Encodable(f)
    ensures var e := Encode(f);
      && |e| >= 110 && e[0..6] == MAGIC && Hex(e[54..62]) == |f.data| && Hex(e[94..102]) == |f.name| + 1
  {
    EncodeParts(f);
    HeaderFields(f);
    hide Encode;
    hide Header;
    var e := Encode(f);
    assert e[0..6] == e[..110][..6] && e[54..62] == e[..110][54..62] && e[94..102] == e[..110][94..102];
  }

  lemma HeaderIs(data: Bytes, at: nat, name: Bytes, size: nat)
    requires at + 110 + |name| <= |data| && |data| + 8 < USIZE
    requires data[at..at + 6] == MAGIC && Hex(data[at + 54..at + 62]) == size && Hex(data[at + 94..at + 102]) == |name| + 1
    requires data[at + 110..at + 110 + |name|] == name && Align4(at + 110 + |name| + 1) + size <= |data|
    ensures HeaderAt(data, at) == Some(Found(name, Align4(at + 110 + |name| + 1), size))
  {
  }

  /** A header read in the middle of an archive is the encoded file's. */
  lemma HeaderReads(pre: Bytes, f: File, post: Bytes, data: Bytes)
    requires Encodable(f) && |pre| % 4 == 0 && data == pre + Encode(f) + post && |data| + 8 < USIZE
    ensures var start := |pre| + Align4(110 + |f.name| + 1);
      && HeaderAt(data, |pre|) == Some(Found(f.name, start, |f.data|))
      && start + |f.data| <= |data| && data[start..start + |f.data|] == f.data
  {
    hide HeaderAt;
    hide Encode;
    hide Align4;
    hide Hex;
    var e, at, n := Encode(f), |pre|, Align4(110 + |f.name| + 1);
    EncodeParts(f);
    EncodedFields(f);
    AlignShift(at, 110 + |f.name| + 1);
    HeaderSlices(pre, e, post, |f.name|, n, n + |f.data|);
    HeaderIs(data, at, f.name, |f.data|);
  }

  lemma HeaderSlices(pre: Bytes, e: Bytes, post: Bytes, name: nat, lo: nat, hi: nat)
    requires 110 + name <= |e| && lo <= hi <= |e|
    ensures var data, at := pre + e + post, |pre|;
      && data[at..at + 6] == e[0..6] && data[at + 54..at + 62] == e[54..62] && data[at + 94..at + 102] == e[94..102]
      && data[at + 110..at + 110 + name] == e[110..110 + name] && data[at + lo..at + hi] == e[lo..hi]
  {
    MiddleSlice(pre, e, post, 0, 6);
    MiddleSlice(pre, e, post, 54, 62);
    MiddleSlice(pre, e, post, 94, 102);
    MiddleSlice(pre, e, post, 110, 110 + name);
    MiddleSlice(pre, e, post, lo, hi);
  }

  /** The bytes of the first file with this name, unless the end mark comes first. */
  function FirstNamed(files: seq<File>, name: Bytes): Option<Bytes> {
    if files == [] || files[0].name == TRAILER then None
    else if files[0].name == name then Some(files[0].data)
    else FirstNamed(files[1..], name)
  }

  function Slice(data: Bytes, r: Option<(nat, nat)>): Option<Bytes>
    requires r.Some? ==> r.value.0 + r.value.1 <= |data|
  {
    if r == None then None else Some(data[r.value.0..r.value.0 + r.value.1])
  }

  lemma Regroup(a: Bytes, b: Bytes, c: Bytes, d: Bytes)
    ensures a + (b + c) + d == a + b + (c + d) == (a + b) + c + d
  {
  }

  lemma ArchiveStep(pre: Bytes, files: seq<File>, post: Bytes, data: Bytes)
    requires files != [] && data == pre + Archive(files) + post
    ensures data == pre + Encode(files[0]) + (Archive(files[1..]) + post)
    ensures data == (pre + Encode(files[0])) + Archive(files[1..]) + post
  {
    hide Encode;
    Regroup(pre, Encode(files[0]), Archive(files[1..]), post);
  }

  lemma {:induction false} FindInArchive(pre: Bytes, files: seq<File>, post: Bytes, data: Bytes, name: Bytes)
    requires (forall i :: 0 <= i < |files| ==> Encodable(files[i])) && |pre| % 4 == 0
    requires files != [] && files[|files| - 1].name == TRAILER
    requires data == pre + Archive(files) + post && |data| + 8 < USIZE
    ensures Slice(data, Find(data, name, |pre|)) == FirstNamed(files, name)
    decreases |files|
  {
    hide HeaderAt;
    hide Encode;
    hide Archive;
    hide Align4;
    var f, next := files[0], pre + Encode(files[0]);
    ArchiveStep(pre, files, post, data);
    HeaderReads(pre, f, Archive(files[1..]) + post, data);
    AlignShift(|pre|, Align4(110 + |f.name| + 1) + |f.data|);
    FindStep(data, name, |pre|);
    if f.name != TRAILER && f.name != name {
      FindInArchive(next, files[1..], post, data, name);
    }
  }

  lemma FindStep(data: Bytes, name: Bytes, at: nat)
    requires HeaderAt(data, at).Some? && |data| + 8 < USIZE
    ensures var h := HeaderAt(data, at).value;
      Find(data, name, at) ==
        if h.name == TRAILER then None
        else if h.name == name then Some((h.start, h.len))
        else Find(data, name, Align4(h.start + h.len))
  {
  }

  /** A path asks for a name by that name, or with "/" or "./" in front of it. */
  predicate AsksFor(path: Bytes, name: Bytes) {
    || path == [47] + name || path == [46, 47] + name
    || (path == name && !([47] <= name) && !([46, 47] <= name))
  }

  lemma Stripped(path: Bytes, name: Bytes)
    requires AsksFor(path, name)
    ensures Strip(path) == name
  {
    assert ([47] + name)[1..] == name && ([46, 47] + name)[2..] == name;
    if path == [46, 47] + name { assert path[0] == 46 && path[..2] == [46, 47]; }
  }

  /** lookup on an encoded archive, closed by the trailer, returns exactly the bytes of the first
      file of the name the path asks for, or nothing if there is none before the trailer; what
      follows is ignored. */
  lemma RoundTrip(files: seq<File>, post: Bytes, path: Bytes, name: Bytes)
    requires AsksFor(path, name)
    requires forall i :: 0 <= i < |files| ==> Encodable(files[i])
    requires |Archive(files + [File(TRAILER, [])]) + post| + 8 < USIZE
    ensures var data := Archive(files + [File(TRAILER, [])]) + post;
      Slice(data, Find(data, Strip(path), 0)) == FirstNamed(files, name)
  {
    Stripped(path, name);
    var all := files + [File(TRAILER, [])];
    var data := Archive(all) + post;
    assert [] + Archive(all) + post == data;
    FindInArchive([], all, post, data, name);
    EndMark(files, name);
  }

  lemma {:induction false} EndMark(files: seq<File>, name: Bytes)
    ensures FirstNamed(files + [File(TRAILER, [])], name) == FirstNamed(files, name)
  {
    if files != [] {
      EndMark(files[1..], name);
      assert (files + [File(TRAILER, [])])[1..] == files[1..] + [File(TRAILER, [])];
    }
  }
}
