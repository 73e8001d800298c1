/** The snapshot encoder and decoder as they run, against the format. */
module SnapshotCodec {
  import opened Wrappers
  import opened Bytes
  import opened SnapshotFormat

  // ----- Encoding -----

  /** Why the encoder refuses: the count, or the first entry that is invalid or takes a size over its bound. */
  ghost predicate Refusal(entries: seq<Entry>, error: SnapshotError) {
    if |entries| > MAX_ENTRIES then error == CountTooLarge
    else
      exists k :: 0 <= k < |entries| && Encodable(entries[..k]) && RefusedAt(entries, k, error)
  }

  ghost predicate RefusedAt(entries: seq<Entry>, k: nat, error: SnapshotError)
    requires k < |entries|
  {
    if !ValidEntry(entries[k]) then error == InvalidEntry
    else if !Fits(entries[k]) then error == EntryTooLarge
    else error == TotalTooLarge && |Frame(entries[..k + 1])| > MAX_SNAPSHOT_BYTES
  }

  lemma {:induction false} PrefixIsShorter(entries: seq<Entry>, k: nat)
    requires k <= |entries|
    ensures |Records(entries[..k])| <= |Records(entries)|
    decreases |entries| - k
  {
    if k < |entries| {
      assert entries[..k + 1] == entries[..k] + [entries[k]];
      RecordsAppend(entries[..k], entries[k]);
      PrefixIsShorter(entries, k + 1);
    } else {
      assert entries[..k] == entries;
    }
  }

  lemma RefusedIsNotEncodable(entries: seq<Entry>, k: nat, error: SnapshotError)
    requires k < |entries| && RefusedAt(entries, k, error)
    ensures !Encodable(entries)
  {
    assert entries[k] in entries;
    PrefixIsShorter(entries, k + 1);
  }

  /** The header and the first `i` records. */
  ghost function Begun(entries: seq<Entry>, i: nat): seq<Byte>
    requires i <= |entries|
  {
    MAGIC + ToBe(|entries|, 4) + Records(entries[..i])
  }

  lemma Regroup(head: seq<Byte>, a: seq<Byte>, b: seq<Byte>, c: seq<Byte>)
    ensures head + (a + (b + c)) == head + a + b + c && head + (a + b + c) == head + a + b + c
  {
  }

  lemma BegunGrows(entries: seq<Entry>, i: nat)
    requires i < |entries|
    ensures Begun(entries, i + 1) == Begun(entries, i) + Field(entries[i].name) + Field(entries[i].value)
    ensures |Begun(entries, i + 1)| == |Frame(entries[..i + 1])|
  {
    assert entries[..i + 1] == entries[..i] + [entries[i]];
    RecordsAppend(entries[..i], entries[i]);
    Regroup(MAGIC + ToBe(|entries|, 4), Records(entries[..i]), Field(entries[i].name), Field(entries[i].value));
  }

  lemma EncodableGrows(entries: seq<Entry>, i: nat)
    requires i < |entries| <= MAX_ENTRIES && Encodable(entries[..i])
    requires ValidEntry(entries[i]) && Fits(entries[i]) && |Frame(entries[..i + 1])| <= MAX_SNAPSHOT_BYTES
    ensures Encodable(entries[..i + 1])
  {
    assert entries[..i + 1] == entries[..i] + [entries[i]];
  }

  method PushField(bytes: seq<Byte>, field: seq<Byte>) returns (r: seq<Byte>)
    ensures r == bytes + Field(field)
  {
    r := bytes + ToBe(|field|, 4);
    r := r + field;
  }

  method Encode(entries: seq<Entry>) returns (r: Result<seq<Byte>, SnapshotError>)
    ensures r.Ok? <==> Encodable(entries)
    ensures r.Ok? ==> r.value == Frame(entries)
    ensures r.Err? ==> Refusal(entries, r.error)
  {
    if |entries| > MAX_ENTRIES {
      return Err(CountTooLarge);
    }
    var bytes := MAGIC + ToBe(|entries|, 4);
    for i := 0 to |entries|
      invariant bytes == Begun(entries, i) && Encodable(entries[..i])
    {
      var e := entries[i];
      if e.name == [] || EQUALS in e.name || 0 in e.name || 0 in e.value {
        RefusedIsNotEncodable(entries, i, InvalidEntry);
        return Err(InvalidEntry);
      }
      if |e.name| > MAX_ENTRY_BYTES || |e.value| > MAX_ENTRY_BYTES {
        RefusedIsNotEncodable(entries, i, EntryTooLarge);
        return Err(EntryTooLarge);
      }
      bytes := PushField(bytes, e.name);
      bytes := PushField(bytes, e.value);
      BegunGrows(entries, i);
      if |bytes| > MAX_SNAPSHOT_BYTES {
        RefusedIsNotEncodable(entries, i, TotalTooLarge);
        return Err(TotalTooLarge);
      }
      EncodableGrows(entries, i);
    }
    assert entries[..|entries|] == entries;
    return Ok(bytes);
  }

  // ----- Decoding -----

  class Decoder {
    const bytes: seq<Byte>
    var offset: nat

    ghost predicate Valid()
      reads this
    {
      offset <= |bytes|
    }

    constructor (bytes: seq<Byte>)
      ensures Valid() && this.bytes == bytes && offset == 0
    {
      this.bytes := bytes;
      offset := 0;
    }

    method Take(length: nat) returns (r: Result<seq<Byte>, SnapshotError>)
      requires Valid()
      modifies this
      ensures Valid()
      ensures old(offset) + length <= |bytes| ==>
                r == Ok(bytes[old(offset)..old(offset) + length]) && offset == old(offset) + length
      ensures old(offset) + length > |bytes| ==> r == Err(Truncated) && offset == old(offset)
    {
      var end := offset + length;
      if end > |bytes| {
        return Err(Truncated);
      }
      r := Ok(bytes[offset..end]);
      offset := end;
    }

    method Length() returns (r: Result<nat, SnapshotError>)
      requires Valid()
      modifies this
      ensures Valid() && r == ReadLength(bytes, old(offset))
      ensures r.Ok? ==> offset == old(offset) + 4
    {
      var value := Take(4);
      if value.Err? {
        return Err(value.error);
      }
      return Ok(OfBe(value.value));
    }

    method Field() returns (r: Result<seq<Byte>, SnapshotError>)
      requires Valid()
      modifies this
      ensures Valid() && r == ReadField(bytes, old(offset))
      ensures r.Ok? ==> offset == old(offset) + 4 + |r.value|
    {
      var length := Length();
      if length.Err? {
        return Err(length.error);
      }
      if length.value > MAX_ENTRY_BYTES {
        return Err(EntryTooLarge);
      }
      r := Take(length.value);
    }

    method NextEntry() returns (r: Result<Entry, SnapshotError>)
      requires Valid()
      modifies this
      ensures Valid() && r == ReadEntry(bytes, old(offset))
      ensures r.Ok? ==> offset == old(offset) + EntrySize(r.value)
    {
      var name := Field();
      if name.Err? {
        return Err(name.error);
      }
      var value := Field();
      if value.Err? {
        return Err(value.error);
      }
      if !ValidEntry(Entry(name.value, value.value)) {
        return Err(InvalidEntry);
      }
      return Ok(Entry(name.value, value.value));
    }
  }

  /** The specification's reader reads these bytes. */
  ghost predicate ReadsAt(read: Reader, bytes: seq<Byte>, at: nat) {
    read(at) == ReadEntry(bytes, at)
  }

  /** Reads one record into the map; `recs` are the records already in it. */
  method DecodeRecord(d: Decoder, entries: seq<Entry>, ghost recs: seq<Entry>, ghost read: Reader)
    returns (r: Result<seq<Entry>, SnapshotError>)
    requires d.Valid() && entries == Collect(recs) && ReadsAt(read, d.bytes, d.offset)
    modifies d
    ensures d.Valid()
    ensures var next := Advance(read, Progress(recs, old(d.offset)));
            if next.Err? then r == Err(next.error)
            else r == Ok(Collect(next.value.records)) && d.offset == next.value.offset
  {
    var e := d.NextEntry();
    if e.Err? {
      return Err(e.error);
    }
    CollectNames(recs, e.value.name);
    if HasName(entries, e.value.name) {
      return Err(DuplicateName);
    }
    assert (recs + [e.value])[..|recs|] == recs;
    return Ok(Insert(entries, e.value));
  }

  lemma RecordsStep(read: Reader, p: Progress, count: nat)
    requires count > 0
    ensures var next := Advance(read, p);
            ReadRecords(read, p, count) == if next.Err? then next else ReadRecords(read, next.value, count - 1)
  {
  }

  method DecodeRecords(d: Decoder, count: nat, ghost read: Reader) returns (r: Result<seq<Entry>, SnapshotError>)
    requires d.Valid() && forall at: nat :: ReadsAt(read, d.bytes, at)
    modifies d
    ensures d.Valid()
    ensures var p := ReadRecords(read, Progress([], old(d.offset)), count);
            if p.Err? then r == Err(p.error) else r == Ok(Collect(p.value.records)) && d.offset == p.value.offset
  {
    ghost var now := Progress([], d.offset);
    var entries: seq<Entry> := [];
    for i := 0 to count
      invariant d.Valid() && entries == Collect(now.records) && d.offset == now.offset
      invariant ReadRecords(read, Progress([], old(d.offset)), count) == ReadRecords(read, now, count - i)
    {
      RecordsStep(read, now, count - i);
      assert ReadsAt(read, d.bytes, d.offset);
      r := DecodeRecord(d, entries, now.records, read);
      if r.Err? {
        return;
      }
      entries := r.value;
      now := Advance(read, now).value;
    }
    return Ok(entries);
  }

  method Decode(bytes: seq<Byte>) returns (r: Result<seq<Entry>, SnapshotError>)
    ensures r == Decoded(bytes)
  {
    if |bytes| > MAX_SNAPSHOT_BYTES {
      return Err(TotalTooLarge);
    }
    var d := new Decoder(bytes);
    var magic := d.Take(|MAGIC|);
    if magic.Err? {
      return Err(magic.error);
    }
    assert magic.value == bytes[..|MAGIC|];
    if magic.value != MAGIC {
      return Err(WrongMagic);
    }
    var count := d.Length();
    if count.Err? {
      return Err(count.error);
    }
    if count.value > MAX_ENTRIES {
      return Err(CountTooLarge);
    }
    r := DecodeRecords(d, count.value, ReaderOf(bytes));
    if r.Ok? && d.offset != |bytes| {
      return Err(TrailingBytes);
    }
  }

  method DecodeEmbedded(bytes: seq<Byte>) returns (r: Result<seq<Entry>, SnapshotError>)
    ensures Embedded(bytes, r)
  {
    var i: nat := 0;
    while i + |MAGIC| <= |bytes|
      invariant forall j: nat :: j < i && MagicAt(bytes, j) ==> Decoded(bytes[j..]).Err?
    {
      if bytes[i..i + |MAGIC|] == MAGIC {
        r := Decode(bytes[i..]);
        if r.Ok? {
          return;
        }
      }
      i := i + 1;
    }
    r := Err(NoFrame);
  }
}
