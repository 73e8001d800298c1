/**
 The structural check of release agent executables, against the ELF64 file and program headers of
 chapters 4 and 5 of the System V gABI read as numbers.
 */
module StaticElf {
  import opened Wrappers
  import opened Bytes

  datatype ElfError = Malformed | WrongMachine | Dynamic

  const U64: nat := 0x1_0000_0000_0000_0000
  const FILE_HEADER_SIZE: nat := 64
  const PROGRAM_HEADER_SIZE: nat := 56
  const PT_LOAD: nat := 1
  const PT_DYNAMIC: nat := 2
  const PT_INTERP: nat := 3

  // ----- The headers -----

  function Unsigned(b: seq<Byte>, at: nat, width: nat): nat
    requires at + width <= |b|
  {
    OfLe(b[at..at + width])
  }

  /** `Elf64_Ehdr`, the fields that matter. */
  datatype FileHeader = FileHeader(
    ident: seq<Byte>, kind: nat, machine: nat, version: nat, entry: nat, tableOffset: nat,
    headerSize: nat, entrySize: nat, entryCount: nat)

  /** `Elf64_Phdr`, the fields that matter. */
  datatype ProgramHeader = ProgramHeader(
    kind: nat, flags: nat, offset: nat, address: nat, fileSize: nat, memorySize: nat)

  function FileHeaderOf(b: seq<Byte>): FileHeader
    requires |b| >= FILE_HEADER_SIZE
  {
    FileHeader(b[..7], Unsigned(b, 16, 2), Unsigned(b, 18, 2), Unsigned(b, 20, 4), Unsigned(b, 24, 8),
               Unsigned(b, 32, 8), Unsigned(b, 52, 2), Unsigned(b, 54, 2), Unsigned(b, 56, 2))
  }

  function ProgramHeaderOf(h: seq<Byte>): ProgramHeader
    requires |h| == PROGRAM_HEADER_SIZE
  {
    ProgramHeader(Unsigned(h, 0, 4), Unsigned(h, 4, 4), Unsigned(h, 8, 8), Unsigned(h, 16, 8),
                  Unsigned(h, 32, 8), Unsigned(h, 40, 8))
  }

  // ----- What a static executable is -----

  /** Magic, 64-bit class, little-endian data, version one, executable or shared kind, an entry point. */
  predicate GoodFileHeader(b: seq<Byte>) {
    |b| >= FILE_HEADER_SIZE
    && (var h := FileHeaderOf(b);
        && h.ident == [0x7f, 0x45, 0x4c, 0x46, 2, 1, 1] && (h.kind == 2 || h.kind == 3)
        && h.version == 1 && h.entry != 0 && h.headerSize == FILE_HEADER_SIZE)
  }

  /** A non-empty program header table after the file header and inside the file. */
  predicate GoodTable(b: seq<Byte>) {
    GoodFileHeader(b)
    && (var h := FileHeaderOf(b);
        && h.entrySize == PROGRAM_HEADER_SIZE && h.entryCount > 0 && h.tableOffset >= FILE_HEADER_SIZE
        && h.tableOffset + PROGRAM_HEADER_SIZE * h.entryCount < U64
        && h.tableOffset + PROGRAM_HEADER_SIZE * h.entryCount <= |b|)
  }

  function Count(b: seq<Byte>): nat
    requires GoodTable(b)
  {
    FileHeaderOf(b).entryCount
  }

  function HeaderAt(b: seq<Byte>, k: nat): ProgramHeader
    requires GoodTable(b) && k < Count(b)
  {
    var at := FileHeaderOf(b).tableOffset + PROGRAM_HEADER_SIZE * k;
    InTable(b, k);
    ProgramHeaderOf(b[at..at + PROGRAM_HEADER_SIZE])
  }

  lemma InTable(b: seq<Byte>, k: nat)
    requires GoodTable(b) && k < Count(b)
    ensures FileHeaderOf(b).tableOffset + PROGRAM_HEADER_SIZE * k + PROGRAM_HEADER_SIZE <= |b|
  {
  }

  predicate IsDynamic(p: ProgramHeader) {
    p.kind == PT_DYNAMIC || p.kind == PT_INTERP
  }

  /** A loadable segment lies inside the file and the address space. */
  predicate GoodSegment(p: ProgramHeader, fileSize: nat) {
    p.kind == PT_LOAD ==>
      && p.fileSize <= p.memorySize && p.offset + p.fileSize < U64 && p.offset + p.fileSize <= fileSize
      && p.address + p.fileSize < U64
  }

  predicate Runs(p: ProgramHeader, entry: nat) {
    p.kind == PT_LOAD && p.flags % 2 == 1 && p.address <= entry < p.address + p.fileSize
  }

  predicate Acceptable(p: ProgramHeader, fileSize: nat) {
    !IsDynamic(p) && GoodSegment(p, fileSize)
  }

  ghost predicate IsStaticElf(b: seq<Byte>, machine: nat) {
    && GoodTable(b) && FileHeaderOf(b).machine == machine
    && (forall k :: 0 <= k < Count(b) ==> Acceptable(HeaderAt(b, k), |b|))
    && exists k :: 0 <= k < Count(b) && Runs(HeaderAt(b, k), FileHeaderOf(b).entry)
  }

  /** The first program header the check objects to. */
  ghost predicate FirstObjection(b: seq<Byte>, k: nat)
    requires GoodTable(b)
  {
    && k < Count(b) && !Acceptable(HeaderAt(b, k), |b|)
    && forall j :: 0 <= j < k ==> Acceptable(HeaderAt(b, j), |b|)
  }

  // ----- Bytes and the numbers they spell -----

  lemma {:induction false} LeIsInjective(a: seq<Byte>, b: seq<Byte>)
    requires |a| == |b| && OfLe(a) == OfLe(b)
    ensures a == b
  {
    if a != [] {
      assert a[0] == b[0] && OfLe(a[1..]) == OfLe(b[1..]);
      LeIsInjective(a[1..], b[1..]);
      assert a == [a[0]] + a[1..] && b == [b[0]] + b[1..];
    }
  }

  lemma LeLiterals()
    ensures OfLe([1, 0, 0, 0]) == 1 && OfLe([64, 0]) == 64 && OfLe([0, 0, 0, 0, 0, 0, 0, 0]) == 0
  {
    assert OfLe([0, 0]) == 0;
    assert [1, 0, 0, 0][1..] == [0, 0, 0] && [0, 0, 0][1..] == [0, 0];
    assert OfLe([0, 0, 0]) == 0;
    assert [0, 0, 0, 0][1..] == [0, 0, 0];
    assert OfLe([0, 0, 0, 0]) == 0;
    assert [0, 0, 0, 0, 0][1..] == [0, 0, 0, 0];
    assert OfLe([0, 0, 0, 0, 0]) == 0;
    assert [0, 0, 0, 0, 0, 0][1..] == [0, 0, 0, 0, 0];
    assert OfLe([0, 0, 0, 0, 0, 0]) == 0;
    assert [0, 0, 0, 0, 0, 0, 0][1..] == [0, 0, 0, 0, 0, 0];
    assert OfLe([0, 0, 0, 0, 0, 0, 0]) == 0;
    assert [0, 0, 0, 0, 0, 0, 0, 0][1..] == [0, 0, 0, 0, 0, 0, 0];
    assert [64, 0][1..] == [0];
  }

  /** The byte comparisons of the check decide the numbers. */
  lemma ComparisonsDecide(b: seq<Byte>)
    requires |b| >= FILE_HEADER_SIZE
    ensures b[20..24] == [1, 0, 0, 0] <==> Unsigned(b, 20, 4) == 1
    ensures b[24..32] == [0, 0, 0, 0, 0, 0, 0, 0] <==> Unsigned(b, 24, 8) == 0
    ensures b[52..54] == [64, 0] <==> Unsigned(b, 52, 2) == 64
  {
    LeLiterals();
    if Unsigned(b, 20, 4) == 1 {
      LeIsInjective(b[20..24], [1, 0, 0, 0]);
    }
    if Unsigned(b, 24, 8) == 0 {
      LeIsInjective(b[24..32], [0, 0, 0, 0, 0, 0, 0, 0]);
    }
    if Unsigned(b, 52, 2) == 64 {
      LeIsInjective(b[52..54], [64, 0]);
    }
  }

  lemma FlagBit(h: seq<Byte>)
    requires |h| == PROGRAM_HEADER_SIZE
    ensures Unsigned(h, 4, 4) % 2 == h[4] % 2
  {
    assert h[4..8][0] == h[4];
    assert Unsigned(h, 4, 4) == h[4] as int + 256 * OfLe(h[4..8][1..]);
  }

  // ----- The check -----

  method CheckFileHeader(b: seq<Byte>) returns (good: bool)
    ensures good == GoodFileHeader(b)
  {
    if |b| < 64 {
      return false;
    }
    ComparisonsDecide(b);
    var kind := OfLe(b[16..18]);
    good := b[..7] == [0x7f, 0x45, 0x4c, 0x46, 2, 1, 1] && (kind == 2 || kind == 3) && b[20..24] == [1, 0, 0, 0]
            && b[24..32] != [0, 0, 0, 0, 0, 0, 0, 0] && b[52..54] == [64, 0];
  }

  /** One program header: an objection, or whether it holds the entry point executably. */
  method CheckProgramHeader(h: seq<Byte>, fileSize: nat, entry: nat) returns (r: Result<bool, ElfError>)
    requires |h| == PROGRAM_HEADER_SIZE
    ensures var p := ProgramHeaderOf(h);
            && (IsDynamic(p) ==> r == Err(Dynamic))
            && (!IsDynamic(p) && !GoodSegment(p, fileSize) ==> r == Err(Malformed))
            && (Acceptable(p, fileSize) ==> r == Ok(Runs(p, entry)))
  {
    var kind := OfLe(h[0..4]);
    if kind == 2 || kind == 3 {
      return Err(Dynamic);
    }
    if kind != 1 {
      return Ok(false);
    }
    var start, length, memory := OfLe(h[8..16]), OfLe(h[32..40]), OfLe(h[40..48]);
    if length > memory || start + length >= U64 || start + length > fileSize {
      return Err(Malformed);
    }
    var address := OfLe(h[16..24]);
    if address + length >= U64 {
      return Err(Malformed);
    }
    FlagBit(h);
    return Ok(h[4] % 2 == 1 && address <= entry < address + length);
  }

  /** The loop over the program headers: the first objection, or whether one of them runs the entry point. */
  method CheckProgramHeaders(b: seq<Byte>) returns (r: Result<bool, ElfError>)
    requires GoodTable(b)
    ensures r.Ok? ==> (forall k :: 0 <= k < Count(b) ==> Acceptable(HeaderAt(b, k), |b|))
                      && (r.value <==> exists k :: 0 <= k < Count(b) && Runs(HeaderAt(b, k), FileHeaderOf(b).entry))
    ensures r.Err? ==> exists k: nat :: FirstObjection(b, k)
                         && r.error == if IsDynamic(HeaderAt(b, k)) then Dynamic else Malformed
  {
    var offset, count, entry := OfLe(b[32..40]), OfLe(b[56..58]), OfLe(b[24..32]);
    var executable := false;
    for k := 0 to count
      invariant forall j :: 0 <= j < k ==> Acceptable(HeaderAt(b, j), |b|)
      invariant executable <==> exists j :: 0 <= j < k && Runs(HeaderAt(b, j), entry)
    {
      InTable(b, k);
      var at := offset + 56 * k;
      var checked := CheckProgramHeader(b[at..at + 56], |b|, entry);
      assert ProgramHeaderOf(b[at..at + 56]) == HeaderAt(b, k);
      if checked.Err? {
        assert FirstObjection(b, k);
        return Err(checked.error);
      }
      executable := executable || checked.value;
    }
    return Ok(executable);
  }

  lemma OneFirstObjection(b: seq<Byte>, j: nat, k: nat)
    requires GoodTable(b) && FirstObjection(b, j) && FirstObjection(b, k)
    ensures j == k
  {
  }

  /** `validate_static_elf`. */
  method Validate(b: seq<Byte>, machine: nat) returns (r: Result<(), ElfError>)
    ensures r.Ok? <==> IsStaticElf(b, machine)
    ensures r == Err(WrongMachine) <==> GoodFileHeader(b) && FileHeaderOf(b).machine != machine
    ensures r == Err(Dynamic) <==>
              && GoodTable(b) && FileHeaderOf(b).machine == machine
              && exists k: nat :: FirstObjection(b, k) && IsDynamic(HeaderAt(b, k))
  {
    var good := CheckFileHeader(b);
    if !good {
      return Err(Malformed);
    }
    if OfLe(b[18..20]) != machine {
      return Err(WrongMachine);
    }
    var offset, size, count := OfLe(b[32..40]), OfLe(b[54..56]), OfLe(b[56..58]);
    var end := offset + size * count;
    if end >= U64 || size != 56 || count == 0 || offset < 64 || end > |b| {
      return Err(Malformed);
    }
    assert GoodTable(b);
    var checked := CheckProgramHeaders(b);
    if checked.Err? {
      ghost var k: nat :| FirstObjection(b, k) && checked.error == if IsDynamic(HeaderAt(b, k)) then Dynamic else Malformed;
      forall j: nat | FirstObjection(b, j) ensures j == k {
        OneFirstObjection(b, j, k);
      }
      return Err(checked.error);
    }
    if !checked.value {
      return Err(Malformed);
    }
    return Ok(());
  }

  // ----- What acceptance means -----

  lemma AppendKeepsUnsigned(b: seq<Byte>, extra: seq<Byte>, at: nat, width: nat)
    requires at + width <= |b|
    ensures Unsigned(b + extra, at, width) == Unsigned(b, at, width)
  {
    assert (b + extra)[at..at + width] == b[at..at + width];
  }

  lemma AppendKeepsFileHeader(b: seq<Byte>, extra: seq<Byte>)
    requires |b| >= FILE_HEADER_SIZE
    ensures FileHeaderOf(b + extra) == FileHeaderOf(b)
  {
    assert (b + extra)[..7] == b[..7];
    AppendKeepsUnsigned(b, extra, 16, 2);
    AppendKeepsUnsigned(b, extra, 18, 2);
    AppendKeepsUnsigned(b, extra, 20, 4);
    AppendKeepsUnsigned(b, extra, 24, 8);
    AppendKeepsUnsigned(b, extra, 32, 8);
    AppendKeepsUnsigned(b, extra, 52, 2);
    AppendKeepsUnsigned(b, extra, 54, 2);
    AppendKeepsUnsigned(b, extra, 56, 2);
  }

  lemma AppendKeepsHeader(b: seq<Byte>, extra: seq<Byte>, k: nat)
    requires GoodTable(b) && k < Count(b)
    ensures GoodTable(b + extra) && Count(b + extra) == Count(b) && HeaderAt(b + extra, k) == HeaderAt(b, k)
  {
    AppendKeepsFileHeader(b, extra);
    InTable(b, k);
    var at := FileHeaderOf(b).tableOffset + PROGRAM_HEADER_SIZE * k;
    assert (b + extra)[at..at + PROGRAM_HEADER_SIZE] == b[at..at + PROGRAM_HEADER_SIZE];
  }

  /** Appending anything to an accepted file leaves it accepted. */
  lemma AcceptanceSurvivesAppending(b: seq<Byte>, extra: seq<Byte>, machine: nat)
    requires IsStaticElf(b, machine)
    ensures IsStaticElf(b + extra, machine)
  {
    AppendKeepsFileHeader(b, extra);
    forall k | 0 <= k < Count(b)
      ensures Count(b + extra) == Count(b) && Acceptable(HeaderAt(b + extra, k), |b + extra|)
    {
      AppendKeepsHeader(b, extra, k);
    }
    var k :| 0 <= k < Count(b) && Runs(HeaderAt(b, k), FileHeaderOf(b).entry);
    AppendKeepsHeader(b, extra, k);
  }

  /** The first instruction of an accepted file is a byte of the file, mapped executable. */
  lemma EntryIsInTheFile(b: seq<Byte>, machine: nat) returns (p: ProgramHeader)
    requires IsStaticElf(b, machine)
    ensures p.kind == PT_LOAD && p.flags % 2 == 1 && p.address <= FileHeaderOf(b).entry
    ensures p.offset + (FileHeaderOf(b).entry - p.address) < |b|
  {
    var k :| 0 <= k < Count(b) && Runs(HeaderAt(b, k), FileHeaderOf(b).entry);
    p := HeaderAt(b, k);
    assert Acceptable(p, |b|);
  }
}
