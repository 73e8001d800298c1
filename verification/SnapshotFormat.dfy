/**
 The environment snapshot format: a magic, a big-endian count and length-prefixed names and values.
 A `BTreeMap` is the strictly ascending sequence of its entries.
 */
module SnapshotFormat {
  import opened Wrappers
  import opened Bytes

  /** `CDENV-ENV`, a zero, version one, a zero. */
  const MAGIC: seq<Byte> := [67, 68, 69, 78, 86, 45, 69, 78, 86, 0, 1, 0]
  const MAX_ENTRIES: nat := 16 * 1024
  const MAX_ENTRY_BYTES: nat := 1024 * 1024
  const MAX_SNAPSHOT_BYTES: nat := 16 * 1024 * 1024
  const EQUALS: Byte := 61

  datatype Entry = Entry(name: seq<Byte>, value: seq<Byte>)

  datatype SnapshotError =
    | CountTooLarge | EntryTooLarge | TotalTooLarge
    | InvalidEntry | WrongMagic | DuplicateName | TrailingBytes | Truncated | NoFrame

  predicate ValidEntry(e: Entry) {
    e.name != [] && EQUALS !in e.name && 0 !in e.name && 0 !in e.value
  }

  predicate Fits(e: Entry) {
    |e.name| <= MAX_ENTRY_BYTES && |e.value| <= MAX_ENTRY_BYTES
  }

  // ----- Ordered maps -----

  ghost predicate Ascending(s: seq<Entry>) {
    forall i, j :: 0 <= i < j < |s| ==> Before(s[i].name, s[j].name)
  }

  predicate HasName(s: seq<Entry>, name: seq<Byte>) {
    exists i :: 0 <= i < |s| && s[i].name == name
  }

  /** Insertion of a new name. */
  function Insert(s: seq<Entry>, e: Entry): seq<Entry> {
    if s == [] || Before(e.name, s[0].name) then [e] + s else [s[0]] + Insert(s[1..], e)
  }

  /** The map built by inserting the entries one after another. */
  function Collect(es: seq<Entry>): seq<Entry> {
    if es == [] then [] else Insert(Collect(es[..|es| - 1]), es[|es| - 1])
  }

  lemma {:induction false} InsertIsPermutation(s: seq<Entry>, e: Entry)
    ensures multiset(Insert(s, e)) == multiset(s) + multiset{e}
    ensures |Insert(s, e)| == |s| + 1
    ensures |Records(Insert(s, e))| == |Records(s)| + |Record(e)|
  {
    if s == [] || Before(e.name, s[0].name) {
      assert ([e] + s)[1..] == s;
    } else {
      InsertIsPermutation(s[1..], e);
      assert s == [s[0]] + s[1..];
      assert ([s[0]] + Insert(s[1..], e))[1..] == Insert(s[1..], e);
    }
  }

  lemma InsertMembers(s: seq<Entry>, e: Entry)
    ensures forall x :: x in Insert(s, e) <==> x in s || x == e
  {
    InsertIsPermutation(s, e);
    forall x
      ensures x in Insert(s, e) <==> x in s || x == e
    {
      assert x in Insert(s, e) <==> x in multiset(Insert(s, e));
      assert x in s <==> x in multiset(s);
    }
  }

  lemma {:induction false} InsertKeepsOrder(s: seq<Entry>, e: Entry)
    requires Ascending(s) && !HasName(s, e.name)
    ensures Ascending(Insert(s, e))
  {
    if s == [] {
    } else if Before(e.name, s[0].name) {
      var t := [e] + s;
      forall j | 1 <= j < |t|
        ensures Before(e.name, t[j].name)
      {
        if j > 1 {
          BeforeIsTransitive(e.name, s[0].name, s[j - 1].name);
        }
      }
    } else {
      BeforeIsTotal(e.name, s[0].name);
      InsertKeepsOrder(s[1..], e);
      InsertMembers(s[1..], e);
      var rest := Insert(s[1..], e);
      forall j | 0 <= j < |rest|
        ensures Before(s[0].name, rest[j].name)
      {
        if rest[j] != e {
          assert rest[j] in s[1..];
        }
      }
    }
  }

  /** Inserting past the end appends. */
  lemma {:induction false} InsertLast(s: seq<Entry>, e: Entry)
    requires forall i :: 0 <= i < |s| ==> Before(s[i].name, e.name)
    ensures Insert(s, e) == s + [e]
  {
    if s != [] {
      BeforeIsStrict(s[0].name, e.name);
      InsertLast(s[1..], e);
    }
  }

  /** Inserting an ordered map in its own order rebuilds it. */
  lemma {:induction false} CollectAscending(m: seq<Entry>)
    requires Ascending(m)
    ensures Collect(m) == m
  {
    if m != [] {
      var last := |m| - 1;
      CollectAscending(m[..last]);
      InsertLast(m[..last], m[last]);
    }
  }

  ghost predicate Distinct(es: seq<Entry>) {
    forall i, j :: 0 <= i < j < |es| ==> es[i].name != es[j].name
  }

  lemma {:induction false} CollectIsPermutation(es: seq<Entry>)
    ensures multiset(Collect(es)) == multiset(es)
    ensures |Collect(es)| == |es|
    ensures |Records(Collect(es))| == |Records(es)|
  {
    if es != [] {
      var last := |es| - 1;
      CollectIsPermutation(es[..last]);
      InsertIsPermutation(Collect(es[..last]), es[last]);
      assert es == es[..last] + [es[last]];
      RecordsAppend(es[..last], es[last]);
    }
  }

  lemma CollectMembers(es: seq<Entry>)
    ensures forall x :: x in Collect(es) <==> x in es
  {
    CollectIsPermutation(es);
    forall x
      ensures x in Collect(es) <==> x in es
    {
      assert x in Collect(es) <==> x in multiset(Collect(es));
      assert x in es <==> x in multiset(es);
    }
  }

  lemma CollectNames(es: seq<Entry>, name: seq<Byte>)
    ensures HasName(Collect(es), name) <==> HasName(es, name)
  {
    CollectMembers(es);
    HasNameIsMembership(es, name);
    HasNameIsMembership(Collect(es), name);
  }

  lemma {:induction false} CollectIsOrdered(es: seq<Entry>)
    requires Distinct(es)
    ensures Ascending(Collect(es))
  {
    if es != [] {
      var last := |es| - 1;
      CollectIsOrdered(es[..last]);
      CollectNames(es[..last], es[last].name);
      InsertKeepsOrder(Collect(es[..last]), es[last]);
    }
  }

  lemma HasNameIsMembership(s: seq<Entry>, name: seq<Byte>)
    ensures HasName(s, name) <==> exists x :: x in s && x.name == name
  {
    if HasName(s, name) {
      var i :| 0 <= i < |s| && s[i].name == name;
      assert s[i] in s;
    }
  }

  // ----- Frames -----

  function Field(b: seq<Byte>): seq<Byte> {
    ToBe(|b|, 4) + b
  }

  function Record(e: Entry): seq<Byte> {
    Field(e.name) + Field(e.value)
  }

  function Records(s: seq<Entry>): seq<Byte> {
    if s == [] then [] else Record(s[0]) + Records(s[1..])
  }

  function Frame(s: seq<Entry>): seq<Byte> {
    MAGIC + ToBe(|s|, 4) + Records(s)
  }

  /** What the encoder accepts. */
  ghost predicate Encodable(s: seq<Entry>) {
    && |s| <= MAX_ENTRIES && |Frame(s)| <= MAX_SNAPSHOT_BYTES
    && forall e :: e in s ==> ValidEntry(e) && Fits(e)
  }

  lemma {:induction false} RecordsAppend(s: seq<Entry>, e: Entry)
    ensures Records(s + [e]) == Records(s) + Record(e)
  {
    if s == [] {
      assert [e][1..] == [];
    } else {
      RecordsAppend(s[1..], e);
      assert (s + [e])[1..] == s[1..] + [e];
    }
  }

  // ----- The decoder's reading of bytes -----

  function ReadLength(b: seq<Byte>, at: nat): Result<nat, SnapshotError> {
    if at + 4 <= |b| then Ok(OfBe(b[at..at + 4])) else Err(Truncated)
  }

  function ReadField(b: seq<Byte>, at: nat): Result<seq<Byte>, SnapshotError> {
    var length := ReadLength(b, at);
    if length.Err? then Err(length.error)
    else if length.value > MAX_ENTRY_BYTES then Err(EntryTooLarge)
    else if at + 4 + length.value <= |b| then Ok(b[at + 4..at + 4 + length.value])
    else Err(Truncated)
  }

  function ReadEntry(b: seq<Byte>, at: nat): Result<Entry, SnapshotError> {
    var name := ReadField(b, at);
    if name.Err? then Err(name.error)
    else
      var value := ReadField(b, at + 4 + |name.value|);
      if value.Err? then Err(value.error)
      else if !ValidEntry(Entry(name.value, value.value)) then Err(InvalidEntry)
      else Ok(Entry(name.value, value.value))
  }

  function EntrySize(e: Entry): nat {
    8 + |e.name| + |e.value|
  }

  /** The records read so far, in the order they were read, and where reading stands. */
  datatype Progress = Progress(records: seq<Entry>, offset: nat)

  /** Reads an entry at an offset. */
  type Reader = nat -> Result<Entry, SnapshotError>

  function ReaderOf(b: seq<Byte>): Reader {
    (at: nat) => ReadEntry(b, at)
  }

  /** One more record. */
  function Advance(read: Reader, p: Progress): Result<Progress, SnapshotError> {
    var e := read(p.offset);
    if e.Err? then Err(e.error)
    else if HasName(p.records, e.value.name) then Err(DuplicateName)
    else Ok(Progress(p.records + [e.value], p.offset + EntrySize(e.value)))
  }

  function ReadRecords(read: Reader, p: Progress, count: nat): Result<Progress, SnapshotError>
    decreases count
  {
    if count == 0 then Ok(p)
    else
      var next := Advance(read, p);
      if next.Err? then next else ReadRecords(read, next.value, count - 1)
  }

  /** What `decode` computes. */
  function Decoded(b: seq<Byte>): Result<seq<Entry>, SnapshotError> {
    if |b| > MAX_SNAPSHOT_BYTES then Err(TotalTooLarge)
    else if |b| < |MAGIC| then Err(Truncated)
    else if b[..|MAGIC|] != MAGIC then Err(WrongMagic)
    else
      var count := ReadLength(b, |MAGIC|);
      if count.Err? then Err(count.error)
      else if count.value > MAX_ENTRIES then Err(CountTooLarge)
      else
        var p := ReadRecords(ReaderOf(b), Progress([], |MAGIC| + 4), count.value);
        if p.Err? then Err(p.error)
        else if p.value.offset != |b| then Err(TrailingBytes)
        else Ok(Collect(p.value.records))
  }

  // ----- Reading what was written -----

  /** `x` is what the bytes show at the offset. */
  predicate Shows(b: seq<Byte>, at: nat, x: seq<Byte>) {
    at + |x| <= |b| && b[at..at + |x|] == x
  }

  lemma SliceParts(b: seq<Byte>, at: nat, m: nat, n: nat)
    requires at + m + n <= |b|
    ensures b[at..at + m + n] == b[at..at + m] + b[at + m..at + m + n]
  {
  }

  lemma PartsAgree(p: seq<Byte>, q: seq<Byte>, x: seq<Byte>, y: seq<Byte>)
    requires |p| == |x|
    ensures p + q == x + y <==> p == x && q == y
  {
    assert (p + q)[..|p|] == p && (p + q)[|p|..] == q;
    assert (x + y)[..|p|] == x && (x + y)[|p|..] == y;
  }

  /** Two pieces lie one after the other exactly when their concatenation does. */
  lemma ShowsBoth(b: seq<Byte>, at: nat, x: seq<Byte>, y: seq<Byte>)
    ensures Shows(b, at, x + y) <==> Shows(b, at, x) && Shows(b, at + |x|, y)
  {
    if at + |x| + |y| <= |b| {
      SliceParts(b, at, |x|, |y|);
      PartsAgree(b[at..at + |x|], b[at + |x|..at + |x| + |y|], x, y);
    }
  }

  lemma LengthReads(n: nat)
    requires n <= MAX_ENTRY_BYTES
    ensures OfBe(ToBe(n, 4)) == n
  {
    assert Pow256(1) == 256 && Pow256(2) == 0x1_0000 && Pow256(3) == 0x100_0000 && Pow256(4) == 0x1_0000_0000;
    OfToBe(n, 4);
  }

  /** A length is read exactly when it is there. */
  lemma ShowsLength(b: seq<Byte>, at: nat, n: nat)
    requires n <= MAX_ENTRY_BYTES
    ensures ReadLength(b, at) == Ok(n) <==> Shows(b, at, ToBe(n, 4))
  {
    LengthReads(n);
    if at + 4 <= |b| {
      ToOfBe(b[at..at + 4]);
    }
  }

  /** A field is read exactly when it is there. */
  lemma FieldReads(b: seq<Byte>, at: nat, f: seq<Byte>)
    ensures ReadField(b, at) == Ok(f) <==> |f| <= MAX_ENTRY_BYTES && Shows(b, at, Field(f))
  {
    if |f| <= MAX_ENTRY_BYTES {
      ShowsLength(b, at, |f|);
      ShowsBoth(b, at, ToBe(|f|, 4), f);
    }
  }

  lemma EntryFromFields(b: seq<Byte>, at: nat, e: Entry)
    ensures ReadEntry(b, at) == Ok(e) <==>
              && ReadField(b, at) == Ok(e.name) && ReadField(b, at + 4 + |e.name|) == Ok(e.value) && ValidEntry(e)
  {
  }

  /** What the records are made of: valid entries that fit. */
  predicate Good(e: Entry) {
    ValidEntry(e) && Fits(e)
  }

  /** An entry is read exactly when a valid, fitting record of it is there. */
  lemma EntryReads(b: seq<Byte>, at: nat, e: Entry)
    ensures ReadEntry(b, at) == Ok(e) <==> Good(e) && Shows(b, at, Record(e))
  {
    EntryFromFields(b, at, e);
    FieldReads(b, at, e.name);
    FieldReads(b, at + 4 + |e.name|, e.value);
    ShowsBoth(b, at, Field(e.name), Field(e.value));
  }

  // ----- Runs of records -----

  /** The entries are read one after another from the offset on. */
  ghost predicate ReadsAs(read: Reader, at: nat, recs: seq<Entry>)
    decreases |recs|
  {
    recs == [] || (read(at) == Ok(recs[0]) && ReadsAs(read, at + EntrySize(recs[0]), recs[1..]))
  }

  function TotalSize(recs: seq<Entry>): nat {
    if recs == [] then 0 else EntrySize(recs[0]) + TotalSize(recs[1..])
  }

  lemma DistinctStep(seen: seq<Entry>, e: Entry, rest: seq<Entry>)
    requires Distinct(seen + [e] + rest)
    ensures !HasName(seen, e.name)
  {
    var all := seen + [e] + rest;
    assert all[|seen|] == e && forall i :: 0 <= i < |seen| ==> all[i] == seen[i];
  }

  lemma {:induction false} RecordsRead(read: Reader, at: nat, recs: seq<Entry>, seen: seq<Entry>)
    requires ReadsAs(read, at, recs) && Distinct(seen + recs)
    ensures ReadRecords(read, Progress(seen, at), |recs|) == Ok(Progress(seen + recs, at + TotalSize(recs)))
    decreases |recs|
  {
    if recs == [] {
      assert seen + recs == seen;
    } else {
      var e, rest := recs[0], recs[1..];
      assert seen + recs == seen + [e] + rest;
      DistinctStep(seen, e, rest);
      RecordsRead(read, at + EntrySize(e), rest, seen + [e]);
    }
  }

  /** Whatever was read, was read one after another. */
  lemma {:induction false} RecordsWereRead(read: Reader, at: nat, count: nat, seen: seq<Entry>)
      returns (recs: seq<Entry>)
    requires ReadRecords(read, Progress(seen, at), count).Ok? && Distinct(seen)
    ensures |recs| == count && ReadsAs(read, at, recs) && Distinct(seen + recs)
    ensures ReadRecords(read, Progress(seen, at), count).value == Progress(seen + recs, at + TotalSize(recs))
    decreases count
  {
    if count == 0 {
      recs := [];
      assert seen + recs == seen;
    } else {
      var e := read(at).value;
      var rest := RecordsWereRead(read, at + EntrySize(e), count - 1, seen + [e]);
      recs := [e] + rest;
      assert seen + recs == seen + [e] + rest;
    }
  }

  // The next lemmas hold for any way of writing entries, so they do not look into it.

  function Concat(write: Entry -> seq<Byte>, recs: seq<Entry>): seq<Byte> {
    if recs == [] then [] else write(recs[0]) + Concat(write, recs[1..])
  }

  /** The reader accepts exactly the good entries, where they are written. */
  ghost predicate Faithful(b: seq<Byte>, read: Reader, write: Entry -> seq<Byte>, good: Entry -> bool) {
    && (forall e :: |write(e)| == EntrySize(e))
    && forall at: nat, e :: read(at) == Ok(e) <==> good(e) && Shows(b, at, write(e))
  }

  lemma GoodFirst(good: Entry -> bool, recs: seq<Entry>)
    requires recs != []
    ensures (forall e :: e in recs ==> good(e)) <==> good(recs[0]) && forall e :: e in recs[1..] ==> good(e)
  {
    assert recs == [recs[0]] + recs[1..];
  }

  /** Then records are read one after another exactly where good ones are written. */
  lemma {:induction false} ReadsWhatLies(
    b: seq<Byte>, read: Reader, write: Entry -> seq<Byte>, good: Entry -> bool, at: nat, recs: seq<Entry>)
    requires Faithful(b, read, write, good) && at <= |b|
    ensures ReadsAs(read, at, recs) <==> Shows(b, at, Concat(write, recs)) && forall e :: e in recs ==> good(e)
    decreases |recs|
  {
    if recs != [] {
      var e, rest := recs[0], recs[1..];
      GoodFirst(good, recs);
      ShowsBoth(b, at, write(e), Concat(write, rest));
      assert read(at) == Ok(e) <==> good(e) && Shows(b, at, write(e));
      if at + EntrySize(e) <= |b| {
        ReadsWhatLies(b, read, write, good, at + EntrySize(e), rest);
      }
    }
  }

  lemma {:induction false} SizeOfRecords(write: Entry -> seq<Byte>, recs: seq<Entry>)
    requires forall e :: |write(e)| == EntrySize(e)
    ensures TotalSize(recs) == |Concat(write, recs)|
  {
    if recs != [] {
      SizeOfRecords(write, recs[1..]);
    }
  }

  lemma {:induction false} RecordsAreConcat(recs: seq<Entry>)
    ensures Records(recs) == Concat(Record, recs)
  {
    if recs != [] {
      RecordsAreConcat(recs[1..]);
    }
  }

  lemma ReaderIsFaithful(b: seq<Byte>)
    ensures Faithful(b, ReaderOf(b), Record, Good)
  {
    forall at: nat, e
      ensures ReaderOf(b)(at) == Ok(e) <==> Good(e) && Shows(b, at, Record(e))
    {
      EntryReads(b, at, e);
    }
  }

  /** The decoder reads records exactly where good records are written. */
  lemma RecordsLie(b: seq<Byte>, at: nat, recs: seq<Entry>)
    requires at <= |b|
    ensures ReadsAs(ReaderOf(b), at, recs) <==> Shows(b, at, Records(recs)) && forall e :: e in recs ==> Good(e)
    ensures TotalSize(recs) == |Records(recs)|
  {
    ReaderIsFaithful(b);
    ReadsWhatLies(b, ReaderOf(b), Record, Good, at, recs);
    SizeOfRecords(Record, recs);
    RecordsAreConcat(recs);
  }

  // ----- The main results -----

  /** A frame of these records, in this order. */
  ghost predicate IsFrameOf(b: seq<Byte>, recs: seq<Entry>) {
    Encodable(recs) && Distinct(recs) && b == Frame(recs)
  }

  lemma FrameParts(recs: seq<Entry>)
    ensures var b := Frame(recs);
            && |b| == 16 + |Records(recs)| && b[..12] == MAGIC && b[12..16] == ToBe(|recs|, 4)
            && b[16..16 + |Records(recs)|] == Records(recs)
  {
  }

  /** Decoding, once the header is in order. */
  lemma DecodedByRecords(b: seq<Byte>, count: nat)
    requires 16 <= |b| <= MAX_SNAPSHOT_BYTES && b[..12] == MAGIC && b[12..16] == ToBe(count, 4) && count <= MAX_ENTRIES
    ensures var p := ReadRecords(ReaderOf(b), Progress([], 16), count);
            Decoded(b) == if p.Err? then Err(p.error)
                          else if p.value.offset != |b| then Err(TrailingBytes)
                          else Ok(Collect(p.value.records))
  {
    LengthReads(count);
  }

  lemma FramesDecode(b: seq<Byte>, recs: seq<Entry>)
    requires IsFrameOf(b, recs)
    ensures Decoded(b) == Ok(Collect(recs))
  {
    FrameParts(recs);
    DecodedByRecords(b, |recs|);
    assert [] + recs == recs;
    RecordsLie(b, 16, recs);
    RecordsRead(ReaderOf(b), 16, recs, []);
  }

  lemma ThreeParts(b: seq<Byte>, x: seq<Byte>, y: seq<Byte>, z: seq<Byte>)
    requires |b| == |x| + |y| + |z| && b[..|x|] == x && b[|x|..|x| + |y|] == y && b[|x| + |y|..] == z
    ensures b == x + y + z
  {
  }

  lemma FrameFromParts(b: seq<Byte>, recs: seq<Entry>)
    requires |b| >= 16 && b[..12] == MAGIC && b[12..16] == ToBe(|recs|, 4)
    requires Shows(b, 16, Records(recs)) && 16 + |Records(recs)| == |b|
    ensures b == Frame(recs)
  {
    assert b[16..] == Records(recs);
    ThreeParts(b, MAGIC, ToBe(|recs|, 4), Records(recs));
  }

  lemma GoodIsEncodable(recs: seq<Entry>)
    requires |recs| <= MAX_ENTRIES && |Frame(recs)| <= MAX_SNAPSHOT_BYTES && forall e :: e in recs ==> Good(e)
    ensures Encodable(recs)
  {
  }

  /** Bytes with the right header that read as these records to the very end are their frame. */
  lemma FrameFromRecords(b: seq<Byte>, recs: seq<Entry>)
    requires 16 <= |b| <= MAX_SNAPSHOT_BYTES && b[..12] == MAGIC && b[12..16] == ToBe(|recs|, 4)
    requires |recs| <= MAX_ENTRIES && Distinct(recs)
    requires ReadsAs(ReaderOf(b), 16, recs) && 16 + TotalSize(recs) == |b|
    ensures IsFrameOf(b, recs)
  {
    RecordsLie(b, 16, recs);
    FrameFromParts(b, recs);
    GoodIsEncodable(recs);
  }

  /** A decoded string has its header in order. */
  lemma DecodedHeader(b: seq<Byte>) returns (count: nat)
    requires Decoded(b).Ok?
    ensures 16 <= |b| <= MAX_SNAPSHOT_BYTES && b[..12] == MAGIC && b[12..16] == ToBe(count, 4) && count <= MAX_ENTRIES
  {
    count := OfBe(b[12..16]);
    ToOfBe(b[12..16]);
  }

  lemma OnlyFramesDecode(b: seq<Byte>) returns (recs: seq<Entry>)
    requires Decoded(b).Ok?
    ensures IsFrameOf(b, recs) && Decoded(b).value == Collect(recs)
  {
    var count := DecodedHeader(b);
    DecodedByRecords(b, count);
    recs := RecordsWereRead(ReaderOf(b), 16, count, []);
    assert [] + recs == recs;
    FrameFromRecords(b, recs);
  }

  /** `decode` accepts exactly the frames of distinct valid records. */
  lemma DecodesExactlyFrames(b: seq<Byte>)
    ensures Decoded(b).Ok? <==> exists recs :: IsFrameOf(b, recs)
  {
    if Decoded(b).Ok? {
      var recs := OnlyFramesDecode(b);
    } else {
      forall recs
        ensures !IsFrameOf(b, recs)
      {
        if IsFrameOf(b, recs) {
          FramesDecode(b, recs);
        }
      }
    }
  }

  lemma AscendingIsDistinct(m: seq<Entry>)
    requires Ascending(m)
    ensures Distinct(m)
  {
    forall i, j | 0 <= i < j < |m|
      ensures m[i].name != m[j].name
    {
      BeforeIsStrict(m[i].name, m[j].name);
    }
  }

  /** Every map the encoder accepts decodes back to itself. */
  lemma EncodedMapsDecode(m: seq<Entry>)
    requires Ascending(m) && Encodable(m)
    ensures Decoded(Frame(m)) == Ok(m)
  {
    AscendingIsDistinct(m);
    FramesDecode(Frame(m), m);
    CollectAscending(m);
  }

  /** Every accepted byte string re-encodes to the same length, differing at most in record order. */
  lemma AcceptedBytesReencode(b: seq<Byte>) returns (recs: seq<Entry>)
    requires Decoded(b).Ok?
    ensures Ascending(Decoded(b).value) && Encodable(Decoded(b).value)
    ensures |Frame(Decoded(b).value)| == |b|
    ensures b == Frame(recs) && multiset(recs) == multiset(Decoded(b).value)
  {
    recs := OnlyFramesDecode(b);
    var m := Decoded(b).value;
    CollectIsOrdered(recs);
    CollectIsPermutation(recs);
    CollectMembers(recs);
  }

  // ----- Frames in noise -----

  predicate MagicAt(b: seq<Byte>, i: nat) {
    i + |MAGIC| <= |b| && b[i..i + |MAGIC|] == MAGIC
  }

  /** What `decode_embedded` returns: the first magic whose whole remainder decodes. */
  ghost predicate Embedded(b: seq<Byte>, r: Result<seq<Entry>, SnapshotError>) {
    match r
    case Ok(m) =>
      exists i: nat :: MagicAt(b, i) && Decoded(b[i..]) == Ok(m)
                       && forall j: nat :: j < i && MagicAt(b, j) ==> Decoded(b[j..]).Err?
    case Err(e) => e == NoFrame && forall i: nat :: MagicAt(b, i) ==> Decoded(b[i..]).Err?
  }

  /** The magic cannot overlap the start of a frame. */
  lemma MagicDoesNotStraddle(noise: seq<Byte>, frame: seq<Byte>, i: nat)
    requires i < |noise| && MagicAt(noise + frame, i) && frame != [] && frame[0] == MAGIC[0]
    ensures MagicAt(noise, i)
  {
    var b, k := noise + frame, |noise| - i;
    assert forall n :: 1 <= n < |MAGIC| ==> MAGIC[n] != MAGIC[0];
    assert forall n :: 0 <= n < |MAGIC| ==> b[i..i + |MAGIC|][n] == b[i + n] == MAGIC[n];
    assert b[i + k] == MAGIC[0];
    assert noise[i..i + |MAGIC|] == b[i..i + |MAGIC|];
  }

  /** The magics before a frame are the magics of the noise. */
  lemma NoiseMagics(noise: seq<Byte>, frame: seq<Byte>, j: nat)
    requires j < |noise| && MagicAt(frame, 0)
    ensures MagicAt(noise + frame, j) <==> MagicAt(noise, j)
    ensures (noise + frame)[j..] == noise[j..] + frame
  {
    var b := noise + frame;
    if j + 12 <= |noise| {
      assert b[j..j + 12] == noise[j..j + 12];
    } else if MagicAt(b, j) {
      assert frame[0] == frame[0..12][0];
      MagicDoesNotStraddle(noise, frame, j);
    }
  }

  lemma FrameBegins(m: seq<Entry>)
    ensures MagicAt(Frame(m), 0)
  {
    FrameParts(m);
    assert Frame(m)[0..12] == Frame(m)[..12];
  }

  /** Where the recovered frame began. */
  lemma FoundAt(noise: seq<Byte>, m: seq<Entry>, r: Result<seq<Entry>, SnapshotError>) returns (i: nat)
    requires Ascending(m) && Encodable(m) && Embedded(noise + Frame(m), r)
    ensures r.Ok? && i <= |noise| && MagicAt(noise + Frame(m), i) && Decoded((noise + Frame(m))[i..]) == r
    ensures forall j: nat :: j < i && MagicAt(noise + Frame(m), j) ==> Decoded((noise + Frame(m))[j..]).Err?
  {
    var b := noise + Frame(m);
    EncodedMapsDecode(m);
    FrameBegins(m);
    assert b[|noise|..] == Frame(m);
    assert b[|noise|..|noise| + 12] == Frame(m)[0..12];
    assert MagicAt(b, |noise|);
    i :| MagicAt(b, i) && Decoded(b[i..]) == r && forall j: nat :: j < i && MagicAt(b, j) ==> Decoded(b[j..]).Err?;
  }

  // ----- A frame never lies inside another frame -----

  /** Names and values in the order they are written. */
  function Fields(s: seq<Entry>): seq<seq<Byte>> {
    if s == [] then [] else [s[0].name, s[0].value] + Fields(s[1..])
  }

  function Flatten(fs: seq<seq<Byte>>): seq<Byte> {
    if fs == [] then [] else Field(fs[0]) + Flatten(fs[1..])
  }

  lemma {:induction false} RecordsAreFields(s: seq<Entry>)
    ensures Flatten(Fields(s)) == Records(s)
  {
    if s != [] {
      RecordsAreFields(s[1..]);
      var fs := Fields(s);
      assert fs[1..] == [s[0].value] + Fields(s[1..]) && fs[1..][1..] == Fields(s[1..]);
      assert Flatten(fs) == Field(s[0].name) + (Field(s[0].value) + Flatten(Fields(s[1..])));
    }
  }

  ghost predicate Writable(fs: seq<seq<Byte>>) {
    forall i :: 0 <= i < |fs| ==> 0 !in fs[i] && |fs[i]| <= MAX_ENTRY_BYTES
  }

  lemma {:induction false} ValidFields(s: seq<Entry>)
    requires forall e :: e in s ==> ValidEntry(e) && Fits(e)
    ensures Writable(Fields(s))
  {
    if s != [] {
      assert s[0] in s && forall e :: e in s[1..] ==> e in s;
      ValidFields(s[1..]);
    }
  }

  /** What every frame shows at its offsets 6 to 13: the end of the magic and the top of a small count. */
  ghost predicate Signature(b: seq<Byte>, p: nat) {
    && p + 8 <= |b| && b[p] != 0 && b[p + 1] != 0 && b[p + 2] != 0
    && b[p + 3] == 0 && b[p + 4] == 1 && b[p + 5] == 0 && b[p + 6] == 0 && b[p + 7] == 0
  }

  lemma SmallLengths(n: nat)
    requires n <= MAX_ENTRY_BYTES
    ensures var b := ToBe(n, 4);
            && b[0] == 0 && b == [0, n / 65536 % 256, n / 256 % 256, n % 256]
            && (b[1] == 1 && b[2] == 0 && b[3] == 0 ==> n == 65536)
  {
    assert ToBe(n, 1) == [n % 256];
    assert ToBe(n / 256, 3) == ToBe(n / 256 / 256, 2) + [n / 256 % 256];
    assert ToBe(n / 256 / 256, 2) == ToBe(n / 256 / 256 / 256, 1) + [n / 256 / 256 % 256];
    assert ToBe(n / 256 / 256 / 256, 1) == [n / 256 / 256 / 256 % 256];
  }

  /** Written fields begin with a zero byte, and never with a length whose content would begin with zero. */
  lemma FieldStarts(fs: seq<seq<Byte>>)
    requires Writable(fs) && fs != []
    ensures |Flatten(fs)| >= 4 && Flatten(fs)[0] == 0
    ensures |Flatten(fs)| > 4 && Flatten(fs)[1] == 1 && Flatten(fs)[2] == 0 && Flatten(fs)[3] == 0 ==> Flatten(fs)[4] != 0
  {
    SmallLengths(|fs[0]|);
    var b := Flatten(fs);
    assert forall k :: 0 <= k < 4 ==> b[k] == ToBe(|fs[0]|, 4)[k];
    assert fs[0] != [] ==> b[4] == fs[0][0] && fs[0][0] in fs[0];
  }

  /** The bytes of one field: a length that begins with zero, then no zero at all. */
  lemma FieldBytes(f: seq<Byte>)
    requires 0 !in f && |f| <= MAX_ENTRY_BYTES
    ensures Field(f)[0] == 0 && forall k :: 4 <= k < |Field(f)| ==> Field(f)[k] != 0
  {
    SmallLengths(|f|);
    assert forall k :: 4 <= k < |Field(f)| ==> Field(f)[k] == f[k - 4];
  }

  /** A signature does not begin in a field, nor reach from it into the next one. */
  lemma NoSignatureAcross(f: seq<Byte>, rest: seq<Byte>, p: nat)
    requires p < |f| && |f| >= 4 && f[0] == 0 && forall k :: 4 <= k < |f| ==> f[k] != 0
    requires rest == [] || (|rest| >= 4 && rest[0] == 0)
    requires |rest| > 4 && rest[1] == 1 && rest[2] == 0 && rest[3] == 0 ==> rest[4] != 0
    ensures !Signature(f + rest, p)
  {
    var b, n := f + rest, |f|;
    assert b[0] == 0 && (p + 3 < n ==> b[p + 3] == f[p + 3]);
    assert forall k :: n <= k < |b| ==> b[k] == rest[k - n];
    assert |rest| > 0 ==> b[n] == 0;
    assert |rest| > 4 ==> b[n + 1] == rest[1] && b[n + 2] == rest[2] && b[n + 3] == rest[3] && b[n + 4] == rest[4];
  }

  lemma NoSignatureLater(f: seq<Byte>, rest: seq<Byte>, p: nat)
    requires p >= |f| && !Signature(rest, p - |f|)
    ensures !Signature(f + rest, p)
  {
    assert forall k :: 0 <= k < |rest| ==> (f + rest)[|f| + k] == rest[k];
  }

  lemma {:induction false} NoSignatureInFields(fs: seq<seq<Byte>>, p: nat)
    requires Writable(fs)
    ensures !Signature(Flatten(fs), p)
    decreases |fs|
  {
    if fs != [] {
      var f, rest := Field(fs[0]), Flatten(fs[1..]);
      if p >= |f| {
        NoSignatureInFields(fs[1..], p - |f|);
        NoSignatureLater(f, rest, p);
      } else {
        FieldBytes(fs[0]);
        if fs[1..] != [] {
          FieldStarts(fs[1..]);
        }
        NoSignatureAcross(f, rest, p);
      }
    }
  }

  lemma FrameShowsSignature(m: seq<Entry>)
    requires |m| <= MAX_ENTRIES
    ensures |Frame(m)| >= 16 && Signature(Frame(m), 6)
  {
    FrameParts(m);
    SmallLengths(|m|);
    var b := Frame(m);
    assert b[12] == b[12..16][0] && b[13] == b[12..16][1];
    assert forall k :: 0 <= k < 12 ==> b[k] == b[..12][k] == MAGIC[k];
  }

  /** What lies after the header of a frame shows no frame. */
  lemma NoFrameInside(outer: seq<Entry>, inner: seq<Entry>, before: seq<Byte>)
    requires Encodable(outer) && |inner| <= MAX_ENTRIES && |before| >= 12
    ensures Frame(outer) != before + Frame(inner)
  {
    var b := before + Frame(inner);
    FrameShowsSignature(inner);
    assert forall k :: 0 <= k < |Frame(inner)| ==> b[|before| + k] == Frame(inner)[k];
    assert Signature(b, |before| + 6);
    RecordsAreFields(outer);
    ValidFields(outer);
    NoSignatureInFields(Fields(outer), |before| + 6 - 16);
    FrameParts(outer);
    assert forall k :: 0 <= k < |Records(outer)| ==> Frame(outer)[16 + k] == Records(outer)[k];
  }

  /** A frame after any noise whatever is recovered: whatever the noise holds, nothing before it decodes. */
  lemma FrameAfterEveryNoise(noise: seq<Byte>, m: seq<Entry>, r: Result<seq<Entry>, SnapshotError>)
    requires Ascending(m) && Encodable(m) && Embedded(noise + Frame(m), r)
    ensures r == Ok(m)
  {
    var b := noise + Frame(m);
    var i := FoundAt(noise, m, r);
    FrameBegins(m);
    if i < |noise| {
      NoiseMagics(noise, Frame(m), i);
      var outer := OnlyFramesDecode(b[i..]);
      NoFrameInside(outer, m, noise[i..]);
    } else {
      EncodedMapsDecode(m);
      assert b[i..] == Frame(m);
    }
  }
}
