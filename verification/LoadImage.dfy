/**
  load_image of validate_hap.py: the bytes of an ELF64 file that identify the loaded program.  Field
  positions follow the ELF gABI, chapters 4 (ELF header) and 5 (program header).
 */
module LoadImage {
  import opened Prelude

  datatype Error =
    | NotElf                   // 'Expected a little-endian ELF64 core'
    | BadProgramHeaders        // 'Invalid ELF program headers'
    | ShortTable               // struct.error: the program header table leaves the file
    | TruncatedSegment         // 'Truncated ELF load segment'
    | NoLoads                  // 'ELF has no load segments'

  datatype Result = Ok(image: seq<Byte>) | Err(error: Error)

  const MAGIC: seq<Byte> := [0x7f, 0x45, 0x4c, 0x46, 2, 1]
  const EHSIZE := 64
  const PHSIZE := 56
  const PT_LOAD := 1

  // struct.unpack of an unsigned little-endian field.
  function LE(s: seq<Byte>): nat {
    if s == [] then 0 else s[0] + 256 * LE(s[1..])
  }

  function Zeros(n: nat): (z: seq<Byte>)
    ensures |z| == n
  {
    seq(n, i => 0)
  }

  predicate Elf(data: seq<Byte>) {
    |data| >= EHSIZE && data[..6] == MAGIC
  }

  // The ELF header without its section-table fields e_shoff, e_shentsize, e_shnum and e_shstrndx.
  function Masked(data: seq<Byte>): (h: seq<Byte>)
    requires |data| >= EHSIZE
    ensures |h| == EHSIZE
  {
    data[..40] + Zeros(8) + data[48..58] + Zeros(6)
  }

  function Phoff(data: seq<Byte>): nat
    requires |data| >= EHSIZE
  {
    LE(data[32..40])
  }

  function Phentsize(data: seq<Byte>): nat
    requires |data| >= EHSIZE
  {
    LE(data[54..56])
  }

  function Count(data: seq<Byte>): nat
    requires |data| >= EHSIZE
  {
    LE(data[56..58])
  }

  // The i-th program header lies within the file.
  predicate HasEntry(data: seq<Byte>, i: nat) {
    |data| >= EHSIZE && Phoff(data) + (i + 1) * PHSIZE <= |data|
  }

  function Entry(data: seq<Byte>, i: nat): (e: seq<Byte>)
    requires HasEntry(data, i)
    ensures |e| == PHSIZE
  {
    var at := Phoff(data) + i * PHSIZE;
    data[at..at + PHSIZE]
  }

  function Kind(e: seq<Byte>): nat
    requires |e| == PHSIZE
  {
    LE(e[..4])
  }

  function Offset(e: seq<Byte>): nat
    requires |e| == PHSIZE
  {
    LE(e[8..16])
  }

  function Filesz(e: seq<Byte>): nat
    requires |e| == PHSIZE
  {
    LE(e[32..40])
  }

  // The segment starts at 0 and covers the ELF header.
  predicate CoversHeader(e: seq<Byte>)
    requires |e| == PHSIZE
  {
    Offset(e) == 0 && Filesz(e) >= EHSIZE
  }

  predicate InFile(data: seq<Byte>, e: seq<Byte>)
    requires |e| == PHSIZE
  {
    Offset(e) + Filesz(e) <= |data|
  }

  // The loaded bytes of a segment that can differ between files with the same headers.
  function Loaded(data: seq<Byte>, e: seq<Byte>): seq<Byte>
    requires |e| == PHSIZE && InFile(data, e)
  {
    if CoversHeader(e) then data[EHSIZE..Filesz(e)] else data[Offset(e)..Offset(e) + Filesz(e)]
  }

  // What the i-th program header adds to the image.
  function Chunk(data: seq<Byte>, i: nat): seq<Byte>
    requires HasEntry(data, i) && (Kind(Entry(data, i)) == PT_LOAD ==> InFile(data, Entry(data, i)))
  {
    var e := Entry(data, i);
    if Kind(e) != PT_LOAD then e
    else if CoversHeader(e) then e + Masked(data) + Loaded(data, e)
    else e + Loaded(data, e)
  }

  // Entry i can be read and, if it is a load segment, lies within the file.
  predicate EntryOk(data: seq<Byte>, i: nat) {
    HasEntry(data, i) && (Kind(Entry(data, i)) == PT_LOAD ==> InFile(data, Entry(data, i)))
  }

  // The first error among the entries from i on.
  function FirstError(data: seq<Byte>, i: nat): (r: Result)
    requires |data| >= EHSIZE
    decreases Count(data) - i
  {
    if i >= Count(data) then Ok([])
    else if !HasEntry(data, i) then Err(ShortTable)
    else if !EntryOk(data, i) then Err(TruncatedSegment)
    else match FirstError(data, i + 1)
      case Err(e) => Err(e)
      case Ok(rest) => Ok(Chunk(data, i) + rest)
  }

  predicate IsLoad(data: seq<Byte>, i: nat) {
    HasEntry(data, i) && Kind(Entry(data, i)) == PT_LOAD
  }

  // Number of load segments among the entries from i on.
  function Loads(data: seq<Byte>, i: nat): nat
    requires |data| >= EHSIZE
    decreases Count(data) - i
  {
    if i >= Count(data) then 0 else (if IsLoad(data, i) then 1 else 0) + Loads(data, i + 1)
  }

  function Image(data: seq<Byte>): Result {
    if !Elf(data) then Err(NotElf)
    else if Phentsize(data) != PHSIZE || Count(data) == 0 then Err(BadProgramHeaders)
    else match FirstError(data, 0)
      case Err(e) => Err(e)
      case Ok(body) => if Loads(data, 0) == 0 then Err(NoLoads) else Ok(Masked(data) + body)
  }

  // ---------- The loop ----------

  // What the loop has built when it comes to entry i.
  ghost predicate Progress(data: seq<Byte>, result: seq<Byte>, loads: nat, i: nat) {
    && |data| >= EHSIZE && loads + Loads(data, i) == Loads(data, 0)
    && match FirstError(data, 0) {
         case Err(e) => FirstError(data, i) == Err(e)
         case Ok(body) => FirstError(data, i).Ok? && result + FirstError(data, i).image == Masked(data) + body
       }
  }

  lemma ProgressStep(data: seq<Byte>, result: seq<Byte>, loads: nat, i: nat)
    requires Progress(data, result, loads, i) && i < Count(data) && EntryOk(data, i)
    ensures Progress(data, result + Chunk(data, i), loads + if IsLoad(data, i) then 1 else 0, i + 1)
  {
    if FirstError(data, i).Ok? {
      BodyStep(data, i);
      Regroup(result, Chunk(data, i), FirstError(data, i + 1).image);
    } else {
      ErrorStep(data, i);
    }
    LoadsStep(data, i);
  }

  lemma Regroup(a: seq<Byte>, b: seq<Byte>, c: seq<Byte>)
    ensures (a + b) + c == a + (b + c)
  {
  }

  lemma LoadsStep(data: seq<Byte>, i: nat)
    requires |data| >= EHSIZE && i < Count(data)
    ensures Loads(data, i) == Loads(data, i + 1) + if IsLoad(data, i) then 1 else 0
  {
  }

  lemma BodyStep(data: seq<Byte>, i: nat)
    requires |data| >= EHSIZE && i < Count(data) && FirstError(data, i).Ok?
    ensures EntryOk(data, i) && FirstError(data, i + 1).Ok?
    ensures FirstError(data, i).image == Chunk(data, i) + FirstError(data, i + 1).image
  {
  }

  lemma ErrorStep(data: seq<Byte>, i: nat)
    requires |data| >= EHSIZE && i < Count(data) && EntryOk(data, i) && FirstError(data, i).Err?
    ensures FirstError(data, i + 1) == FirstError(data, i)
  {
  }

  lemma ProgressStops(data: seq<Byte>, result: seq<Byte>, loads: nat, i: nat)
    requires Progress(data, result, loads, i) && i < Count(data) && !EntryOk(data, i)
    ensures FirstError(data, 0) == Err(if HasEntry(data, i) then TruncatedSegment else ShortTable)
  {
  }

  /** The bytes of a load segment, with the ELF header in it masked. */
  method ReadSegment(data: seq<Byte>, header: seq<Byte>, offset: nat, filesz: nat) returns (segment: seq<Byte>)
    requires offset + filesz <= |data| && |header| == EHSIZE
    ensures segment == if offset == 0 && filesz >= EHSIZE then header + data[EHSIZE..filesz]
            else data[offset..offset + filesz]
  {
    segment := data[offset..offset + filesz];
    if offset == 0 && filesz >= 64 {
      segment := header + segment[64..];
    }
  }

  // The ELF header as a buffer with its section-table fields overwritten.
  method MaskHeader(data: seq<Byte>) returns (header: array<Byte>)
    requires |data| >= EHSIZE
    ensures fresh(header) && header[..] == Masked(data)
  {
    header := new Byte[64](i requires 0 <= i < 64 => data[i]);
    forall i | 40 <= i < 48 { header[i] := 0; }
    forall i | 58 <= i < 64 { header[i] := 0; }
  }

  /** One turn of the loop: what program header i adds, or the exception it raises. */
  method ReadEntry(data: seq<Byte>, header: seq<Byte>, phoff: nat, i: nat)
      returns (chunk: seq<Byte>, load: bool, error: Option<Error>)
    requires |data| >= EHSIZE && phoff == Phoff(data) && header == Masked(data)
    ensures error.None? <==> EntryOk(data, i)
    ensures error.None? ==> chunk == Chunk(data, i) && (load <==> IsLoad(data, i))
    ensures error.Some? ==> error.value == if HasEntry(data, i) then TruncatedSegment else ShortTable
  {
    chunk, load, error := [], false, None;
    var entry := Slice(data, phoff + i * 56, phoff + (i + 1) * 56);
    if |entry| != 56 {
      error := Some(ShortTable);
      return;
    }
    chunk := entry;
    var kind, offset, filesz := LE(entry[..4]), LE(entry[8..16]), LE(entry[32..40]);
    if kind != 1 {
      return;
    }
    if offset + filesz > |data| {
      error := Some(TruncatedSegment);
      return;
    }
    var segment := ReadSegment(data, header, offset, filesz);
    ChunkIs(data, i, segment);
    chunk := chunk + segment;
    load := true;
  }

  /** load_image, with its buffers and its loop. */
  method Load(data: seq<Byte>) returns (r: Result)
    ensures r == Image(data)
  {
    if |data| < 64 || data[..6] != MAGIC {
      return Err(NotElf);
    }
    var header := MaskHeader(data);
    var phoff, phsize, count := LE(data[32..40]), LE(data[54..56]), LE(data[56..58]);
    if phsize != 56 || count == 0 {
      return Err(BadProgramHeaders);
    }
    var result := header[..];
    var loads, i := 0, 0;
    while i < count
      invariant i <= count && header[..] == Masked(data)
      invariant Progress(data, result, loads, i)
    {
      var chunk, load, error := ReadEntry(data, header[..], phoff, i);
      if error.Some? {
        ProgressStops(data, result, loads, i);
        return Err(error.value);
      }
      ProgressStep(data, result, loads, i);
      result := result + chunk;
      if load {
        loads := loads + 1;
      }
      i := i + 1;
    }
    ProgressEnds(data, result, loads, i);
    if loads == 0 {
      return Err(NoLoads);
    }
    return Ok(result);
  }

  lemma ProgressEnds(data: seq<Byte>, result: seq<Byte>, loads: nat, i: nat)
    requires Progress(data, result, loads, i) && i >= Count(data)
    ensures FirstError(data, 0).Ok? && result == Masked(data) + FirstError(data, 0).image && loads == Loads(data, 0)
  {
    assert result + [] == result;
  }

  lemma ChunkIs(data: seq<Byte>, i: nat, segment: seq<Byte>)
    requires EntryOk(data, i) && IsLoad(data, i)
    requires var e := Entry(data, i);
      segment == if CoversHeader(e) then Masked(data) + data[EHSIZE..Filesz(e)]
          else data[Offset(e)..Offset(e) + Filesz(e)]
    ensures Chunk(data, i) == Entry(data, i) + segment
  {
  }

  // Python's data[lo:hi] for 0 <= lo <= hi.
  function Slice(data: seq<Byte>, lo: nat, hi: nat): (s: seq<Byte>)
    requires lo <= hi
    ensures hi <= |data| ==> s == data[lo..hi]
    ensures |s| == hi - lo <==> hi <= |data| || lo == hi
  {
    if lo >= |data| then [] else if hi <= |data| then data[lo..hi] else data[lo..]
  }

  // ---------- What is accepted ----------

  ghost predicate AllOk(data: seq<Byte>, i: nat)
    requires |data| >= EHSIZE
  {
    forall k: nat :: i <= k < Count(data) ==> EntryOk(data, k)
  }

  lemma {:induction false} EntriesOk(data: seq<Byte>, i: nat)
    requires |data| >= EHSIZE
    ensures FirstError(data, i).Ok? <==> AllOk(data, i)
    decreases Count(data) - i
  {
    if i < Count(data) {
      EntriesOk(data, i + 1);
      if AllOk(data, i) { assert EntryOk(data, i) && AllOk(data, i + 1); }
      if EntryOk(data, i) && AllOk(data, i + 1) {
        forall k: nat | i <= k < Count(data) ensures EntryOk(data, k) { assert k == i || i + 1 <= k; }
      }
    }
  }

  lemma {:induction false} SomeLoad(data: seq<Byte>, i: nat)
    requires |data| >= EHSIZE
    ensures Loads(data, i) > 0 <==> exists k: nat :: i <= k < Count(data) && IsLoad(data, k)
    decreases Count(data) - i
  {
    if i < Count(data) {
      SomeLoad(data, i + 1);
      if IsLoad(data, i) { assert i <= i < Count(data); }
    }
  }

  ghost predicate Accepted(data: seq<Byte>) {
    && Elf(data) && Phentsize(data) == PHSIZE
    && (forall k: nat :: k < Count(data) ==> EntryOk(data, k))
    && (exists k: nat :: k < Count(data) && IsLoad(data, k))
  }

  lemma ImageIffAccepted(data: seq<Byte>)
    ensures Image(data).Ok? <==> Accepted(data)
  {
    if Elf(data) {
      EntriesOk(data, 0);
      SomeLoad(data, 0);
    }
  }

  // ---------- The file, byte by byte ----------

  function U16(d: seq<Byte>, at: nat): nat
    requires at + 2 <= |d|
  {
    d[at] as nat + 0x100 * (d[at + 1] as nat)
  }

  function U32(d: seq<Byte>, at: nat): nat
    requires at + 4 <= |d|
  {
    U16(d, at) + 0x1_0000 * U16(d, at + 2)
  }

  function U64(d: seq<Byte>, at: nat): nat
    requires at + 8 <= |d|
  {
    U32(d, at) + 0x1_0000_0000 * U32(d, at + 4)
  }

  // Where program header i starts.
  function PhAt(d: seq<Byte>, i: nat): nat
    requires |d| >= 64
  {
    U64(d, 32) + 56 * i
  }

  predicate PhInFile(d: seq<Byte>, i: nat) {
    |d| >= 64 && PhAt(d, i) + 56 <= |d|
  }

  predicate PhLoads(d: seq<Byte>, i: nat) {
    PhInFile(d, i) && U32(d, PhAt(d, i)) == 1
  }

  // The segment is p_filesz bytes, at the eight bytes from 32 on, from p_offset, at those from 8 on.
  predicate SegmentInFile(d: seq<Byte>, i: nat)
    requires PhInFile(d, i)
  {
    U64(d, PhAt(d, i) + 8) + U64(d, PhAt(d, i) + 32) <= |d|
  }

  predicate PhFine(d: seq<Byte>, i: nat) {
    PhInFile(d, i) && (PhLoads(d, i) ==> SegmentInFile(d, i))
  }

  predicate IsElf64(d: seq<Byte>) {
    |d| >= 64 && d[0] == 0x7f && d[1] == 0x45 && d[2] == 0x4c && d[3] == 0x46 && d[4] == 2 && d[5] == 1
  }

  lemma LE2(d: seq<Byte>, at: nat)
    requires at + 2 <= |d|
    ensures LE(d[at..at + 2]) == U16(d, at)
  {
    LEStep(d[at..at + 2]);
  }

  lemma LEStep(s: seq<Byte>)
    requires |s| >= 2
    ensures LE(s) == s[0] as nat + 0x100 * (s[1] as nat) + 0x1_0000 * LE(s[2..])
  {
    assert s[1..][0] == s[1] && s[1..][1..] == s[2..];
  }

  lemma LE4(d: seq<Byte>, at: nat)
    requires at + 4 <= |d|
    ensures LE(d[at..at + 4]) == U32(d, at)
  {
    LEStep(d[at..at + 4]);
    assert d[at..at + 4][2..] == d[at + 2..at + 4];
    LE2(d, at + 2);
  }

  lemma LE8(d: seq<Byte>, at: nat)
    requires at + 8 <= |d|
    ensures LE(d[at..at + 8]) == U64(d, at)
  {
    var s := d[at..at + 8];
    LEStep(s);
    LEStep(s[2..]);
    assert s[2..][2..] == d[at + 4..at + 8];
    LE4(d, at + 4);
  }

  // What the header fields are.
  lemma HeaderFields(d: seq<Byte>)
    requires |d| >= EHSIZE
    ensures Phoff(d) == U64(d, 32) && Phentsize(d) == U16(d, 54) && Count(d) == U16(d, 56)
  {
    LE8(d, 32);
    LE2(d, 54);
    LE2(d, 56);
  }

  lemma EntryFields(d: seq<Byte>, i: nat)
    requires HasEntry(d, i)
    ensures PhInFile(d, i) && Entry(d, i) == d[PhAt(d, i)..PhAt(d, i) + 56]
    ensures Kind(Entry(d, i)) == U32(d, PhAt(d, i))
    ensures Offset(Entry(d, i)) == U64(d, PhAt(d, i) + 8) && Filesz(Entry(d, i)) == U64(d, PhAt(d, i) + 32)
  {
    HeaderFields(d);
    var at := PhAt(d, i);
    SubSlice(d, at, at + 56, 0, 4);
    SubSlice(d, at, at + 56, 8, 16);
    SubSlice(d, at, at + 56, 32, 40);
    LE4(d, at);
    LE8(d, at + 8);
    LE8(d, at + 32);
  }

  lemma EntryFine(d: seq<Byte>, i: nat)
    requires |d| >= EHSIZE
    ensures HasEntry(d, i) <==> PhInFile(d, i)
    ensures EntryOk(d, i) <==> PhFine(d, i)
    ensures IsLoad(d, i) <==> PhLoads(d, i)
  {
    HeaderFields(d);
    if HasEntry(d, i) { EntryFields(d, i); }
  }

  lemma ElfBytes(d: seq<Byte>)
    ensures Elf(d) <==> IsElf64(d)
  {
    if |d| >= 6 { assert d[..6] == [d[0], d[1], d[2], d[3], d[4], d[5]]; }
  }

  // The first program header that cannot be read or whose load segment leaves the file.
  predicate FirstBad(d: seq<Byte>, k: nat)
    requires |d| >= 64
  {
    k < U16(d, 56) && !PhFine(d, k) && forall j | 0 <= j < k :: PhFine(d, j)
  }

  predicate AllFine(d: seq<Byte>)
    requires |d| >= 64
  {
    forall k | 0 <= k < U16(d, 56) :: PhFine(d, k)
  }

  predicate SomeLoads(d: seq<Byte>)
    requires |d| >= 64
  {
    exists k | 0 <= k < U16(d, 56) :: PhLoads(d, k)
  }

  /** A file is accepted exactly if it is a little-endian ELF64 file with 56-byte program headers, all of
      them and all load segments within the file, and at least one load segment. */
  lemma AcceptedIff(d: seq<Byte>)
    ensures Image(d).Ok? <==> IsElf64(d) && U16(d, 54) == 56 && AllFine(d) && SomeLoads(d)
  {
    ImageIffAccepted(d);
    ElfBytes(d);
    if |d| >= EHSIZE {
      HeaderFields(d);
      forall k: nat ensures EntryOk(d, k) <==> PhFine(d, k) { EntryFine(d, k); }
      forall k: nat ensures IsLoad(d, k) <==> PhLoads(d, k) { EntryFine(d, k); }
    }
  }

  lemma {:induction false} ErrorFrom(d: seq<Byte>, i: nat, k: nat)
    requires |d| >= EHSIZE && i <= k && FirstBad(d, k)
    ensures FirstError(d, i) == Err(if PhInFile(d, k) then TruncatedSegment else ShortTable)
    decreases k - i
  {
    HeaderFields(d);
    EntryFine(d, i);
    if i < k { ErrorFrom(d, i + 1, k); }
  }

  /** Which exception a rejected file raises: the checks in order, and of several bad program headers the first. */
  lemma RejectedAs(d: seq<Byte>, e: Error)
    requires Image(d) == Err(e)
    ensures e.NotElf? <==> !IsElf64(d)
    ensures e.BadProgramHeaders? <==> IsElf64(d) && (U16(d, 54) != 56 || U16(d, 56) == 0)
    ensures IsElf64(d) && U16(d, 54) == 56 && U16(d, 56) != 0 ==>
      && (e.ShortTable? <==> exists k :: FirstBad(d, k) && !PhInFile(d, k))
      && (e.TruncatedSegment? <==> exists k :: FirstBad(d, k) && PhInFile(d, k))
      && (e.NoLoads? <==> AllFine(d) && !SomeLoads(d))
  {
    ElfBytes(d);
    if IsElf64(d) {
      HeaderFields(d);
      if U16(d, 54) == 56 && U16(d, 56) != 0 { RejectedLater(d); }
    }
  }

  lemma RejectedLater(d: seq<Byte>)
    requires IsElf64(d) && U16(d, 54) == 56 && U16(d, 56) != 0
    ensures Image(d) == Err(ShortTable) <==> exists k :: FirstBad(d, k) && !PhInFile(d, k)
    ensures Image(d) == Err(TruncatedSegment) <==> exists k :: FirstBad(d, k) && PhInFile(d, k)
    ensures Image(d) == Err(NoLoads) <==> AllFine(d) && !SomeLoads(d)
    ensures Image(d) != Err(NotElf) && Image(d) != Err(BadProgramHeaders)
  {
    ElfBytes(d);
    HeaderFields(d);
    if AllFine(d) { FineBody(d); } else {
      var k := BadOne(d, 0);
      ErrorFrom(d, 0, k);
      assert FirstBad(d, k);
    }
  }

  lemma FineBody(d: seq<Byte>)
    requires |d| >= EHSIZE && AllFine(d)
    ensures FirstError(d, 0).Ok? && (Loads(d, 0) > 0 <==> SomeLoads(d))
  {
    HeaderFields(d);
    EntriesOk(d, 0);
    SomeLoad(d, 0);
    forall k: nat ensures EntryOk(d, k) <==> PhFine(d, k) { EntryFine(d, k); }
    forall k: nat ensures IsLoad(d, k) <==> PhLoads(d, k) { EntryFine(d, k); }
  }

  lemma {:induction false} BadOne(d: seq<Byte>, i: nat) returns (k: nat)
    requires |d| >= EHSIZE && !AllFine(d) && forall j | 0 <= j < i :: PhFine(d, j)
    ensures FirstBad(d, k)
    decreases U16(d, 56) - i
  {
    if i < U16(d, 56) && PhFine(d, i) { k := BadOne(d, i + 1); } else { k := i; }
  }

  // ---------- What the image is ----------

  // The bytes that program header i adds: itself, and the segment it loads.
  function PhAdds(d: seq<Byte>, i: nat): nat
    requires PhFine(d, i)
  {
    56 + if PhLoads(d, i) then U64(d, PhAt(d, i) + 32) else 0
  }

  // Where the bytes that program header i adds start in the image.
  ghost function StartsAt(d: seq<Byte>, i: nat): nat
    requires |d| >= 64 && forall j | 0 <= j < i :: PhFine(d, j)
  {
    if i == 0 then 64 else StartsAt(d, i - 1) + PhAdds(d, i - 1)
  }

  // Byte k of the ELF header in the image: e_shoff is zero, and so are the last three fields.
  function HeaderByte(d: seq<Byte>, k: nat): Byte
    requires k < 64 <= |d|
  {
    if 40 <= k < 48 || 58 <= k then 0 else d[k]
  }

  // Byte k of the segment in the image: an ELF header that it starts with is that of the image.
  function SegmentByte(d: seq<Byte>, i: nat, k: nat): Byte
    requires PhLoads(d, i) && PhFine(d, i) && k < U64(d, PhAt(d, i) + 32)
  {
    var from, size := U64(d, PhAt(d, i) + 8), U64(d, PhAt(d, i) + 32);
    if from == 0 && size >= 64 && k < 64 then HeaderByte(d, k) else d[from + k]
  }

  // From position `at` on, `image` holds what program header i adds.
  ghost predicate HoldsEntry(d: seq<Byte>, image: seq<Byte>, i: nat, at: nat) {
    && PhFine(d, i) && at + PhAdds(d, i) <= |image|
    && image[at..at + 56] == d[PhAt(d, i)..PhAt(d, i) + 56]
    && (PhLoads(d, i) ==>
          forall k :: 0 <= k < U64(d, PhAt(d, i) + 32) ==> image[at + 56 + k] == SegmentByte(d, i, k))
  }

  lemma MaskedBytes(d: seq<Byte>)
    requires |d| >= EHSIZE
    ensures forall k :: 0 <= k < 64 ==> Masked(d)[k] == HeaderByte(d, k)
  {
  }

  lemma ChunkBytes(d: seq<Byte>, i: nat)
    requires EntryOk(d, i)
    ensures PhFine(d, i) && |Chunk(d, i)| == PhAdds(d, i) && HoldsEntry(d, Chunk(d, i), i, 0)
  {
    EntryFine(d, i);
    EntryFields(d, i);
    MaskedBytes(d);
    var e := Entry(d, i);
    ChunkParts(d, i);
    assert Chunk(d, i)[..56] == e;
    if PhLoads(d, i) {
      forall k | 0 <= k < Filesz(e) ensures Chunk(d, i)[56 + k] == SegmentByte(d, i, k) {
        assert Chunk(d, i)[56 + k] == Tail(d, i)[k];
        if CoversHeader(e) && k >= 64 { assert Tail(d, i)[k] == Loaded(d, e)[k - 64] == d[k]; }
      }
    }
  }

  lemma HoldsEntryLater(d: seq<Byte>, front: seq<Byte>, image: seq<Byte>, back: seq<Byte>, i: nat, at: nat)
    requires HoldsEntry(d, image, i, at)
    ensures HoldsEntry(d, front + image + back, i, |front| + at)
  {
    var whole := front + image + back;
    assert forall k :: at <= k < at + PhAdds(d, i) ==> whole[|front| + k] == image[k];
    assert whole[|front| + at..|front| + at + 56] == image[at..at + 56];
    if PhLoads(d, i) {
      forall k | 0 <= k < U64(d, PhAt(d, i) + 32) ensures whole[|front| + at + 56 + k] == SegmentByte(d, i, k) {
        assert whole[|front| + (at + 56 + k)] == image[at + 56 + k];
      }
    }
  }

  lemma EntryInPlace(d: seq<Byte>, i: nat, front: seq<Byte>, rest: seq<Byte>)
    requires |d| >= EHSIZE && AllFine(d) && i < U16(d, 56) && |front| == StartsAt(d, i)
    ensures EntryOk(d, i) && |front + Chunk(d, i)| == StartsAt(d, i + 1)
    ensures HoldsEntry(d, front + Chunk(d, i) + rest, i, StartsAt(d, i))
  {
    EntryFine(d, i);
    ChunkBytes(d, i);
    HoldsEntryLater(d, front, Chunk(d, i), rest, i, 0);
  }

  lemma BodyNextOk(d: seq<Byte>, i: nat)
    requires |d| >= EHSIZE && i < U16(d, 56) && FirstError(d, i).Ok?
    ensures EntryOk(d, i) && FirstError(d, i + 1).Ok?
    ensures FirstError(d, i).image == Chunk(d, i) + FirstError(d, i + 1).image
  {
    HeaderFields(d);
    BodyStep(d, i);
  }

  lemma BodyEmpty(d: seq<Byte>)
    requires |d| >= EHSIZE
    ensures FirstError(d, U16(d, 56)) == Ok([])
  {
    HeaderFields(d);
  }

  // The part before program header i is as long as it should be.
  ghost predicate UpTo(d: seq<Byte>, front: seq<Byte>, i: nat) {
    |d| >= 64 && AllFine(d) && i <= U16(d, 56) && |front| == StartsAt(d, i)
  }

  ghost predicate BodyIs(d: seq<Byte>, i: nat, body: seq<Byte>) {
    |d| >= EHSIZE && FirstError(d, i) == Ok(body)
  }

  // The image is `front` and what the program headers from i on add.
  ghost predicate SplitsAt(d: seq<Byte>, image: seq<Byte>, front: seq<Byte>, i: nat) {
    UpTo(d, front, i) && FirstError(d, i).Ok? && image == front + FirstError(d, i).image
  }

  lemma OneChunk(d: seq<Byte>, image: seq<Byte>, front: seq<Byte>, i: nat) returns (longer: seq<Byte>)
    requires SplitsAt(d, image, front, i) && i < U16(d, 56)
    ensures SplitsAt(d, image, longer, i + 1) && HoldsEntry(d, image, i, StartsAt(d, i))
  {
    BodyNextOk(d, i);
    var rest := FirstError(d, i + 1).image;
    longer := front + Chunk(d, i);
    EntryInPlace(d, i, front, rest);
    Regroup(front, Chunk(d, i), rest);
  }

  lemma {:induction false} EntryHolds(d: seq<Byte>, image: seq<Byte>, front: seq<Byte>, i: nat, k: nat)
    requires SplitsAt(d, image, front, i) && i <= k < U16(d, 56)
    ensures HoldsEntry(d, image, k, StartsAt(d, k))
    decreases k - i
  {
    var longer := OneChunk(d, image, front, i);
    if i < k { EntryHolds(d, image, longer, i + 1, k); }
  }

  lemma {:induction false} ImageEnds(d: seq<Byte>, image: seq<Byte>, front: seq<Byte>, i: nat)
    requires SplitsAt(d, image, front, i)
    ensures |image| == StartsAt(d, U16(d, 56))
    decreases U16(d, 56) - i
  {
    if i == U16(d, 56) {
      BodyEmpty(d);
    } else {
      var longer := OneChunk(d, image, front, i);
      ImageEnds(d, image, longer, i + 1);
    }
  }

  /** The image of an accepted file, byte by byte: the masked ELF header, and then for each program header in
      order the header itself and the segment it loads, with nothing before, between or behind. */
  lemma ImageBytes(d: seq<Byte>)
    requires Image(d).Ok?
    ensures IsElf64(d) && AllFine(d) && |Image(d).image| >= 64
    ensures forall k :: 0 <= k < 64 ==> Image(d).image[k] == HeaderByte(d, k)
    ensures |Image(d).image| == StartsAt(d, U16(d, 56))
    ensures forall k: nat :: k < U16(d, 56) ==> HoldsEntry(d, Image(d).image, k, StartsAt(d, k))
  {
    AcceptedIff(d);
    HeaderFields(d);
    MaskedBytes(d);
    var image, front := Image(d).image, Masked(d);
    ImageEnds(d, image, front, 0);
    forall k: nat | k < U16(d, 56) ensures HoldsEntry(d, image, k, StartsAt(d, k)) {
      EntryHolds(d, image, front, 0, k);
    }
  }

  // ---------- What the image identifies ----------

  /** Two files load the same program: the ELF headers agree outside the section-table fields, all program
      headers agree, and every load range agrees. */
  ghost predicate SameProgram(a: seq<Byte>, b: seq<Byte>)
    requires |a| >= 64 && |b| >= 64
  {
    && (forall k :: 0 <= k < 40 || 48 <= k < 58 ==> a[k] == b[k])
    && (forall i: nat :: i < U16(a, 56) ==> SamePh(a, b, i))
  }

  // Program header i, and the part of its segment behind an ELF header that it starts with.
  ghost predicate SamePh(a: seq<Byte>, b: seq<Byte>, i: nat) {
    && PhFine(a, i) && PhFine(b, i)
    && a[PhAt(a, i)..PhAt(a, i) + 56] == b[PhAt(b, i)..PhAt(b, i) + 56]
    && (PhLoads(a, i) ==>
          var from, size := U64(a, PhAt(a, i) + 8), U64(a, PhAt(a, i) + 32);
          forall k :: (if from == 0 && size >= 64 then 64 else from) <= k < from + size ==> k < |b| && a[k] == b[k])
  }

  ghost predicate SameParts(a: seq<Byte>, b: seq<Byte>)
    requires Accepted(a) && Accepted(b)
  {
    && Masked(a) == Masked(b)
    && (forall i: nat {:trigger SameEntry(a, b, i)} :: i < Count(a) ==> SameEntry(a, b, i))
  }

  lemma SamePhIff(a: seq<Byte>, b: seq<Byte>, i: nat)
    requires EntryOk(a, i) && EntryOk(b, i)
    ensures SamePh(a, b, i) <==> SameEntry(a, b, i)
  {
    EntryFine(a, i);
    EntryFine(b, i);
    EntryFields(a, i);
    EntryFields(b, i);
    var e, f := Entry(a, i), Entry(b, i);
    if e == f && PhLoads(a, i) { SameLoadIff(a, b, e); }
  }

  lemma SameLoadIff(a: seq<Byte>, b: seq<Byte>, e: seq<Byte>)
    requires |e| == PHSIZE && InFile(a, e) && InFile(b, e)
    ensures Loaded(a, e) == Loaded(b, e) <==>
      forall k :: (if CoversHeader(e) then 64 else Offset(e)) <= k < Offset(e) + Filesz(e) ==> a[k] == b[k]
  {
    var lo, hi := if CoversHeader(e) then 64 else Offset(e), Offset(e) + Filesz(e);
    var x, y := Loaded(a, e), Loaded(b, e);
    assert x == a[lo..hi] && y == b[lo..hi];
    if x == y {
      forall k | lo <= k < hi ensures a[k] == b[k] { assert a[k] == x[k - lo] && b[k] == y[k - lo]; }
    }
  }

  lemma MaskedIff(a: seq<Byte>, b: seq<Byte>)
    requires |a| >= EHSIZE && |b| >= EHSIZE
    ensures Masked(a) == Masked(b) <==> forall k :: 0 <= k < 40 || 48 <= k < 58 ==> a[k] == b[k]
  {
    MaskedBytes(a);
    MaskedBytes(b);
    if Masked(a) == Masked(b) {
      forall k | 0 <= k < 40 || 48 <= k < 58 ensures a[k] == b[k] { assert Masked(a)[k] == Masked(b)[k]; }
    }
  }

  lemma SameProgramIff(a: seq<Byte>, b: seq<Byte>)
    requires Accepted(a) && Accepted(b)
    ensures SameProgram(a, b) <==> SameParts(a, b)
  {
    MaskedIff(a, b);
    HeaderFields(a);
    HeaderFields(b);
    if Masked(a) == Masked(b) {
      MaskedFields(a, b);
      forall i: nat | i < Count(a) ensures SamePh(a, b, i) <==> SameEntry(a, b, i) { SamePhIff(a, b, i); }
    }
  }

  ghost predicate SameEntry(a: seq<Byte>, b: seq<Byte>, i: nat) {
    && EntryOk(a, i) && EntryOk(b, i)
    && Entry(a, i) == Entry(b, i)
    && (Kind(Entry(a, i)) == PT_LOAD ==> Loaded(a, Entry(a, i)) == Loaded(b, Entry(b, i)))
  }

  lemma SubSlice(s: seq<Byte>, lo: nat, hi: nat, x: nat, y: nat)
    requires lo <= hi <= |s| && x <= y <= hi - lo
    ensures s[lo..hi][x..y] == s[lo + x..lo + y]
  {
    var u := s[lo..hi];
    assert forall k :: x <= k < y ==> u[k] == s[lo + k];
    assert |u[x..y]| == |s[lo + x..lo + y]|;
    assert forall k :: 0 <= k < y - x ==> u[x..y][k] == s[lo + x..lo + y][k];
  }

  // Equal masked headers place the program headers alike.
  lemma MaskedFields(a: seq<Byte>, b: seq<Byte>)
    requires |a| >= EHSIZE && |b| >= EHSIZE && Masked(a) == Masked(b)
    ensures Phoff(a) == Phoff(b) && Phentsize(a) == Phentsize(b) && Count(a) == Count(b)
  {
    assert Masked(a)[32..40] == a[32..40] && Masked(b)[32..40] == b[32..40];
    assert Masked(a)[48..58] == a[48..58] && Masked(b)[48..58] == b[48..58];
    SubSlice(a, 48, 58, 6, 8);
    SubSlice(b, 48, 58, 6, 8);
    SubSlice(a, 48, 58, 8, 10);
    SubSlice(b, 48, 58, 8, 10);
  }

  lemma Prefixes<T>(x: seq<T>, y: seq<T>, u: seq<T>, v: seq<T>)
    requires |x| == |y|
    ensures x + u == y + v <==> x == y && u == v
  {
    if x + u == y + v {
      assert x == (x + u)[..|x|] && y == (y + v)[..|x|];
      assert u == (x + u)[|x|..] && v == (y + v)[|x|..];
    }
  }

  // The part of a chunk behind the program header.
  function Tail(data: seq<Byte>, i: nat): seq<Byte>
    requires EntryOk(data, i)
  {
    var e := Entry(data, i);
    if Kind(e) != PT_LOAD then [] else if CoversHeader(e) then Masked(data) + Loaded(data, e) else Loaded(data, e)
  }

  lemma ChunkParts(data: seq<Byte>, i: nat)
    requires EntryOk(data, i)
    ensures Chunk(data, i) == Entry(data, i) + Tail(data, i)
  {
  }

  lemma SameTails(a: seq<Byte>, b: seq<Byte>, i: nat)
    requires EntryOk(a, i) && EntryOk(b, i) && Masked(a) == Masked(b) && Entry(a, i) == Entry(b, i)
    ensures |Tail(a, i)| == |Tail(b, i)|
    ensures Tail(a, i) == Tail(b, i) <==> SameEntry(a, b, i)
  {
    var e := Entry(a, i);
    if Kind(e) == PT_LOAD && CoversHeader(e) {
      Prefixes(Masked(a), Masked(b), Loaded(a, e), Loaded(b, e));
    }
  }

  // A chunk determines, and is determined by, the entry and the loaded bytes.
  lemma ChunkDecodes(a: seq<Byte>, b: seq<Byte>, i: nat, u: seq<Byte>, v: seq<Byte>)
    requires EntryOk(a, i) && EntryOk(b, i) && Masked(a) == Masked(b)
    ensures Chunk(a, i) + u == Chunk(b, i) + v <==> SameEntry(a, b, i) && u == v
  {
    var e, f, x, y := Entry(a, i), Entry(b, i), Tail(a, i), Tail(b, i);
    ChunkParts(a, i);
    ChunkParts(b, i);
    Regroup(e, x, u);
    Regroup(f, y, v);
    Prefixes(e, f, x + u, y + v);
    if e == f {
      SameTails(a, b, i);
      Prefixes(x, y, u, v);
    }
  }

  ghost predicate BothOk(a: seq<Byte>, b: seq<Byte>, i: nat) {
    |a| >= EHSIZE && |b| >= EHSIZE && FirstError(a, i).Ok? && FirstError(b, i).Ok?
  }

  ghost predicate SameBody(a: seq<Byte>, b: seq<Byte>, i: nat)
    requires BothOk(a, b, i)
  {
    FirstError(a, i).image == FirstError(b, i).image
  }

  lemma BodyEnd(a: seq<Byte>, b: seq<Byte>, i: nat)
    requires BothOk(a, b, i) && i >= Count(a) && i >= Count(b)
    ensures SameBody(a, b, i)
  {
  }

  lemma BodyNext(a: seq<Byte>, b: seq<Byte>, i: nat)
    requires BothOk(a, b, i) && Masked(a) == Masked(b) && i < Count(a) && i < Count(b)
    ensures BothOk(a, b, i + 1)
    ensures SameBody(a, b, i) <==> SameEntry(a, b, i) && SameBody(a, b, i + 1)
  {
    BodyStep(a, i);
    BodyStep(b, i);
    ChunkDecodes(a, b, i, FirstError(a, i + 1).image, FirstError(b, i + 1).image);
  }

  lemma {:induction false} EqualBodies(a: seq<Byte>, b: seq<Byte>, i: nat, n: nat)
    requires BothOk(a, b, i) && Masked(a) == Masked(b) && Count(a) == Count(b) == n && SameBody(a, b, i)
    ensures forall k: nat :: i <= k < n ==> SameEntry(a, b, k)
    decreases n - i
  {
    if i < n {
      BodyNext(a, b, i);
      EqualBodies(a, b, i + 1, n);
    }
  }

  lemma {:induction false} EqualEntries(a: seq<Byte>, b: seq<Byte>, i: nat, n: nat)
    requires BothOk(a, b, i) && Masked(a) == Masked(b) && Count(a) == Count(b) == n
    requires forall k: nat :: i <= k < n ==> SameEntry(a, b, k)
    ensures SameBody(a, b, i)
    decreases n - i
  {
    if i < n {
      BodyNext(a, b, i);
      EqualEntries(a, b, i + 1, n);
    } else {
      BodyEnd(a, b, i);
    }
  }

  lemma EqualImages(a: seq<Byte>, b: seq<Byte>)
    requires Accepted(a) && Accepted(b)
    ensures Image(a).Ok? && Image(b).Ok?
    ensures Image(a).image == Image(b).image <==> SameParts(a, b)
  {
    ImageIffAccepted(a);
    ImageIffAccepted(b);
    Prefixes(Masked(a), Masked(b), FirstError(a, 0).image, FirstError(b, 0).image);
    if Masked(a) == Masked(b) {
      MaskedFields(a, b);
      if SameBody(a, b, 0) { EqualBodies(a, b, 0, Count(a)); }
      if SameParts(a, b) { EqualEntries(a, b, 0, Count(a)); }
    }
  }

  /** Two accepted files have equal images if and only if they load the same program. */
  lemma ImagesIdentifyPrograms(a: seq<Byte>, b: seq<Byte>)
    requires Image(a).Ok? && Image(b).Ok?
    ensures |a| >= 64 && |b| >= 64
    ensures Image(a).image == Image(b).image <==> SameProgram(a, b)
  {
    ImageIffAccepted(a);
    ImageIffAccepted(b);
    EqualImages(a, b);
    SameProgramIff(a, b);
  }

  // ---------- Bytes that do not matter ----------

  /** Position k takes part in identifying the program of `a`: it is in the ELF header outside the
      section-table fields, in the program header table, or in a load segment, where a segment that
      starts at 0 and covers the ELF header counts from the end of that header on. */
  ghost predicate Covered(a: seq<Byte>, k: nat)
    requires |a| >= 64
  {
    || k < 40 || 48 <= k < 58
    || (exists i: nat :: i < U16(a, 56) && CoveredBy(a, i, k))
  }

  ghost predicate CoveredBy(a: seq<Byte>, i: nat, k: nat) {
    PhFine(a, i) &&
    (|| PhAt(a, i) <= k < PhAt(a, i) + 56
     || (PhLoads(a, i) &&
         var from, size := U64(a, PhAt(a, i) + 8), U64(a, PhAt(a, i) + 32);
         (if from == 0 && size >= 64 then 64 else from) <= k < from + size))
  }

  ghost predicate AgreeWhereCovered(a: seq<Byte>, b: seq<Byte>)
    requires |a| >= 64
  {
    |b| >= |a| && forall k: nat :: k < |a| && Covered(a, k) ==> b[k] == a[k]
  }

  lemma AgreeHeader(a: seq<Byte>, b: seq<Byte>)
    requires Accepted(a) && AgreeWhereCovered(a, b)
    ensures Masked(a) == Masked(b) && Elf(b)
  {
    assert forall k: nat :: k < 40 || 48 <= k < 58 ==> Covered(a, k);
    assert a[..40] == b[..40] && a[48..58] == b[48..58];
    assert a[..6] == a[..40][..6] && b[..6] == b[..40][..6];
  }

  lemma AgreeEntry(a: seq<Byte>, b: seq<Byte>, i: nat)
    requires Accepted(a) && AgreeWhereCovered(a, b) && i < Count(a) && |b| >= EHSIZE && Phoff(a) == Phoff(b)
    ensures SameEntry(a, b, i)
  {
    assert EntryOk(a, i);
    EntryFine(a, i);
    EntryFields(a, i);
    HeaderFields(a);
    var at, e := PhAt(a, i), Entry(a, i);
    forall k: nat | CoveredBy(a, i, k) && k < |a| ensures b[k] == a[k] { assert Covered(a, k); }
    assert forall j :: at <= j < at + 56 ==> CoveredBy(a, i, j);
    assert Entry(b, i) == e;
    if Kind(e) == PT_LOAD {
      assert forall j :: (if CoversHeader(e) then 64 else Offset(e)) <= j < Offset(e) + Filesz(e) ==>
             CoveredBy(a, i, j);
      SameLoadIff(a, b, e);
    }
  }

  /** Editing, or appending, bytes anywhere else never changes the result. */
  lemma OtherBytesDoNotMatter(a: seq<Byte>, b: seq<Byte>)
    requires Image(a).Ok? && |a| >= 64 && AgreeWhereCovered(a, b)
    ensures Image(b) == Image(a)
  {
    ImageIffAccepted(a);
    AgreeHeader(a, b);
    MaskedFields(a, b);
    forall i: nat | i < Count(a) ensures SameEntry(a, b, i) { AgreeEntry(a, b, i); }
    var k: nat :| k < Count(a) && IsLoad(a, k);
    assert SameEntry(a, b, k) && IsLoad(b, k);
    assert forall i: nat :: i < Count(b) ==> SameEntry(a, b, i) ==> EntryOk(b, i);
    EqualImages(a, b);
  }
}
