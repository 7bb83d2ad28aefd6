/** The attach-control wire format (internal/transport/attach/wire.go): payload codecs, the acknowledgement check and
    the message framing. */
module AttachWire {
  import opened Bytes
  import opened SelfDelimiting
  import opened Sequences

  const HEADER_SIZE := 12
  const MAX_PAYLOAD := 0x1_0000
  const MAX_TOKEN := 256
  const MAX_ERROR := 4096
  const MAX_ENTRIES := 4096
  const TABLE_HEADER := 10
  const ENTRY_SIZE := 10
  const ID_SIZE := 8

  const STREAM: byte := 1
  const DATAGRAM: byte := 3
  const ACTIVE: byte := 1
  const CLOSED: byte := 2

  datatype Entry = Entry(id: uint64, kind: byte, state: byte)
  datatype Summary = Summary(epoch: uint64, entries: seq<Entry>)
  datatype Ack = Ack(epoch: uint64, ids: seq<uint64>)
  datatype Attach = Attach(token: seq<byte>, lastEpoch: uint64)

  // ----- Rows of fixed width -----

  function Flat(rows: seq<seq<byte>>): seq<byte> { if rows == [] then [] else rows[0] + Flat(rows[1..]) }

  function Split(s: seq<byte>, width: nat): seq<seq<byte>>
    requires width > 0
  {
    if |s| < width then [] else [s[..width]] + Split(s[width..], width)
  }

  ghost predicate AllWide(rows: seq<seq<byte>>, width: nat) { forall i :: 0 <= i < |rows| ==> |rows[i]| == width }

  lemma {:induction false} SplitOfFlat(rows: seq<seq<byte>>, width: nat)
    requires width > 0 && AllWide(rows, width)
    ensures Split(Flat(rows), width) == rows && |Flat(rows)| == width * |rows|
  {
    if rows != [] {
      SplitOfFlat(rows[1..], width);
      var s := Flat(rows);
      assert s[..width] == rows[0] && s[width..] == Flat(rows[1..]);
    }
  }

  lemma {:induction false} FlatOfSplit(s: seq<byte>, width: nat, count: nat)
    requires width > 0 && |s| == width * count
    ensures Flat(Split(s, width)) == s && |Split(s, width)| == count && AllWide(Split(s, width), width)
    decreases count
  {
    if count > 0 {
      assert |s| >= width && |s[width..]| == width * (count - 1);
      FlatOfSplit(s[width..], width, count - 1);
      assert Split(s, width)[1..] == Split(s[width..], width);
    }
  }

  /** epoch, count, rows */
  function EncodeTable(epoch: uint64, rows: seq<seq<byte>>): seq<byte> { BE(epoch, 8) + BE(|rows|, 2) + Flat(rows) }

  datatype Table = Table(epoch: uint64, rows: seq<seq<byte>>)

  function DecodeTable(p: seq<byte>, width: nat): Option<Table>
    requires width > 0
  {
    if |p| < TABLE_HEADER || (|p| - TABLE_HEADER) % width != 0 then None
    else
      Fixed(0, p[..8]);
      var count := FromBE(p[8..10]);
      if count > MAX_ENTRIES || |p| != TABLE_HEADER + width * count then None
      else Some(Table(FromBE(p[..8]), Split(p[10..], width)))
  }

  lemma DecodeAfterTable(epoch: uint64, rows: seq<seq<byte>>, width: nat)
    requires (width == ENTRY_SIZE || width == ID_SIZE) && AllWide(rows, width) && |rows| <= MAX_ENTRIES
    ensures DecodeTable(EncodeTable(epoch, rows), width) == Some(Table(epoch, rows))
  {
    var p := EncodeTable(epoch, rows);
    SplitOfFlat(rows, width);
    assert p[..8] == BE(epoch, 8) && p[8..10] == BE(|rows|, 2) && p[10..] == Flat(rows);
    Fixed(epoch, []);
    Fixed(|rows|, []);
    Multiple(width, |rows|);
  }

  lemma Multiple(width: nat, count: nat)
    requires width == ENTRY_SIZE || width == ID_SIZE
    ensures (width * count) % width == 0
  {
  }

  lemma TableAfterDecode(p: seq<byte>, width: nat)
    requires width > 0 && DecodeTable(p, width).Some?
    ensures var t := DecodeTable(p, width).value;
            EncodeTable(t.epoch, t.rows) == p && AllWide(t.rows, width) && |t.rows| <= MAX_ENTRIES
  {
    var count := FromBE(p[8..10]);
    FlatOfSplit(p[10..], width, count);
    Fixed(0, p[..8]);
    Fixed(0, p[8..10]);
    assert p == p[..8] + p[8..10] + p[10..];
  }

  // ----- Summary -----

  predicate ValidEntry(e: Entry) { e.id != 0 && STREAM <= e.kind <= DATAGRAM && ACTIVE <= e.state <= CLOSED }

  predicate Increasing(ids: seq<uint64>) { forall i, j :: 0 <= i < j < |ids| ==> ids[i] < ids[j] }

  function IDs(entries: seq<Entry>): (ids: seq<uint64>)
    ensures |ids| == |entries|
  {
    seq(|entries|, i requires 0 <= i < |entries| => entries[i].id)
  }

  predicate ValidEntries(entries: seq<Entry>) {
    (forall i :: 0 <= i < |entries| ==> ValidEntry(entries[i])) && Increasing(IDs(entries))
  }

  predicate ValidSummary(s: Summary) { |s.entries| <= MAX_ENTRIES && ValidEntries(s.entries) }

  function EncodeEntry(e: Entry): (row: seq<byte>)
    ensures |row| == ENTRY_SIZE
  {
    BE(e.id, 8) + [e.kind, e.state]
  }

  function DecodeEntry(row: seq<byte>): Entry
    requires |row| == ENTRY_SIZE
  {
    Fixed(0, row[..8]);
    Entry(FromBE(row[..8]), row[8], row[9])
  }

  lemma EntryBothWays(e: Entry, row: seq<byte>)
    requires |row| == ENTRY_SIZE
    ensures DecodeEntry(EncodeEntry(e)) == e && EncodeEntry(DecodeEntry(row)) == row
  {
    Fixed(e.id, row[..8]);
    assert EncodeEntry(e)[..8] == BE(e.id, 8);
    assert row == row[..8] + [row[8], row[9]];
  }

  function Rows(entries: seq<Entry>): (rows: seq<seq<byte>>)
    ensures |rows| == |entries|
  {
    seq(|entries|, i requires 0 <= i < |entries| => EncodeEntry(entries[i]))
  }

  function Entries(rows: seq<seq<byte>>): (entries: seq<Entry>)
    requires AllWide(rows, ENTRY_SIZE)
    ensures |entries| == |rows|
  {
    seq(|rows|, i requires 0 <= i < |rows| => DecodeEntry(rows[i]))
  }

  /** EncodeSummary fails exactly on an invalid summary. */
  function EncodeSummary(s: Summary): Option<seq<byte>> {
    if ValidSummary(s) then Some(EncodeTable(s.epoch, Rows(s.entries))) else None
  }

  function DecodeSummary(p: seq<byte>): Option<Summary> {
    match DecodeTable(p, ENTRY_SIZE)
    case None => None
    case Some(t) =>
      TableAfterDecode(p, ENTRY_SIZE);
      var s := Summary(t.epoch, Entries(t.rows));
      if ValidSummary(s) then Some(s) else None
  }

  lemma DecodeAfterSummary(s: Summary)
    requires ValidSummary(s)
    ensures DecodeSummary(EncodeSummary(s).value) == Some(s)
  {
    DecodeAfterTable(s.epoch, Rows(s.entries), ENTRY_SIZE);
    forall i | 0 <= i < |s.entries| ensures DecodeEntry(Rows(s.entries)[i]) == s.entries[i] {
      EntryBothWays(s.entries[i], EncodeEntry(s.entries[i]));
    }
    assert Entries(Rows(s.entries)) == s.entries;
  }

  lemma SummaryAfterDecode(p: seq<byte>)
    requires DecodeSummary(p).Some?
    ensures ValidSummary(DecodeSummary(p).value) && EncodeSummary(DecodeSummary(p).value) == Some(p)
  {
    TableAfterDecode(p, ENTRY_SIZE);
    var rows := DecodeTable(p, ENTRY_SIZE).value.rows;
    forall i | 0 <= i < |rows| ensures EncodeEntry(DecodeEntry(rows[i])) == rows[i] {
      EntryBothWays(Entry(0, 0, 0), rows[i]);
    }
    assert Rows(Entries(rows)) == rows;
  }

  // ----- Resume acknowledgement -----

  predicate ValidIds(ids: seq<uint64>) { (forall i :: 0 <= i < |ids| ==> ids[i] != 0) && Increasing(ids) }

  predicate ValidAck(a: Ack) { |a.ids| <= MAX_ENTRIES && ValidIds(a.ids) }

  function IdRows(ids: seq<uint64>): (rows: seq<seq<byte>>)
    ensures |rows| == |ids| && AllWide(rows, ID_SIZE)
  {
    seq(|ids|, i requires 0 <= i < |ids| => BE(ids[i], 8))
  }

  function Id(row: seq<byte>): uint64
    requires |row| == ID_SIZE
  {
    Fixed(0, row);
    FromBE(row)
  }

  function RowIds(rows: seq<seq<byte>>): (ids: seq<uint64>)
    requires AllWide(rows, ID_SIZE)
    ensures |ids| == |rows|
  {
    seq(|rows|, i requires 0 <= i < |rows| => Id(rows[i]))
  }

  function EncodeAck(a: Ack): Option<seq<byte>> {
    if ValidAck(a) then Some(EncodeTable(a.epoch, IdRows(a.ids))) else None
  }

  function DecodeAck(p: seq<byte>): Option<Ack> {
    match DecodeTable(p, ID_SIZE)
    case None => None
    case Some(t) =>
      TableAfterDecode(p, ID_SIZE);
      var a := Ack(t.epoch, RowIds(t.rows));
      if ValidAck(a) then Some(a) else None
  }

  lemma DecodeAfterAck(a: Ack)
    requires ValidAck(a)
    ensures DecodeAck(EncodeAck(a).value) == Some(a)
  {
    DecodeAfterTable(a.epoch, IdRows(a.ids), ID_SIZE);
    forall i | 0 <= i < |a.ids| ensures Id(IdRows(a.ids)[i]) == a.ids[i] { Fixed(a.ids[i], []); }
    assert RowIds(IdRows(a.ids)) == a.ids;
  }

  lemma AckAfterDecode(p: seq<byte>)
    requires DecodeAck(p).Some?
    ensures ValidAck(DecodeAck(p).value) && EncodeAck(DecodeAck(p).value) == Some(p)
  {
    TableAfterDecode(p, ID_SIZE);
    var rows := DecodeTable(p, ID_SIZE).value.rows;
    forall i | 0 <= i < |rows| ensures IdRows(RowIds(rows))[i] == rows[i] { Fixed(0, rows[i]); }
    assert IdRows(RowIds(rows)) == rows;
  }

  // ----- Attach and AttachOK -----

  predicate ValidAttach(a: Attach) { 1 <= |a.token| <= MAX_TOKEN }

  function EncodeAttach(a: Attach): Option<seq<byte>> {
    if ValidAttach(a) then Some(BE(|a.token|, 2) + a.token + BE(a.lastEpoch, 8)) else None
  }

  function DecodeAttach(p: seq<byte>): Option<Attach> {
    if |p| < 10 then None
    else
      var n := FromBE(p[..2]);
      if n == 0 || n > MAX_TOKEN || |p| != 2 + n + 8 then None
      else
        Fixed(0, p[2 + n..]);
        Some(Attach(p[2..2 + n], FromBE(p[2 + n..])))
  }

  lemma DecodeAfterAttach(a: Attach)
    requires ValidAttach(a)
    ensures DecodeAttach(EncodeAttach(a).value) == Some(a)
  {
    var n := |a.token|;
    var p := EncodeAttach(a).value;
    Fixed(n, []);
    Fixed(a.lastEpoch, []);
    assert p[..2] == BE(n, 2) && p[2..2 + n] == a.token && p[2 + n..] == BE(a.lastEpoch, 8);
  }

  lemma AttachAfterDecode(p: seq<byte>)
    requires DecodeAttach(p).Some?
    ensures ValidAttach(DecodeAttach(p).value) && EncodeAttach(DecodeAttach(p).value) == Some(p)
  {
    var n := FromBE(p[..2]);
    Fixed(0, p[..2]);
    Fixed(0, p[2 + n..]);
    assert p == p[..2] + p[2..2 + n] + p[2 + n..];
  }

  /** The original 16-byte form reads as instance 0. */
  function EncodeAttachOK(epoch: uint64, capabilities: uint64): seq<byte> { BE(epoch, 8) + BE(capabilities, 8) }

  function EncodeAttachOKWithInstance(epoch: uint64, capabilities: uint64, instance: uint64): seq<byte> {
    BE(epoch, 8) + BE(capabilities, 8) + BE(instance, 8)
  }

  function U64(s: seq<byte>): uint64
    requires |s| == 8
  {
    Fixed(0, s);
    FromBE(s)
  }

  function DecodeAttachOK(p: seq<byte>): Option<(uint64, uint64, uint64)> {
    if |p| != 16 && |p| != 24 then None
    else Some((U64(p[..8]), U64(p[8..16]), if |p| == 24 then U64(p[16..24]) else 0))
  }

  lemma AttachOKRoundTrip(epoch: uint64, capabilities: uint64, instance: uint64)
    ensures DecodeAttachOK(EncodeAttachOKWithInstance(epoch, capabilities, instance)) == Some((epoch, capabilities, instance))
    ensures DecodeAttachOK(EncodeAttachOK(epoch, capabilities)) == Some((epoch, capabilities, 0))
  {
    var p, q := EncodeAttachOKWithInstance(epoch, capabilities, instance), EncodeAttachOK(epoch, capabilities);
    Fixed(epoch, []);
    Fixed(capabilities, []);
    Fixed(instance, []);
    assert p[..8] == BE(epoch, 8) && p[8..16] == BE(capabilities, 8) && p[16..24] == BE(instance, 8);
    assert q[..8] == BE(epoch, 8) && q[8..16] == BE(capabilities, 8);
  }

  /** Only the two lengths are accepted, and both are what their encoder writes. */
  lemma AttachOKAfterDecode(p: seq<byte>)
    requires DecodeAttachOK(p).Some?
    ensures var (epoch, capabilities, instance) := DecodeAttachOK(p).value;
            if |p| == 24 then p == EncodeAttachOKWithInstance(epoch, capabilities, instance)
            else |p| == 16 && instance == 0 && p == EncodeAttachOK(epoch, capabilities)
  {
    U64Back(p[..8]);
    U64Back(p[8..16]);
    if |p| == 24 {
      U64Back(p[16..24]);
      assert p == p[..8] + p[8..16] + p[16..24];
    } else {
      assert p == p[..8] + p[8..16];
    }
  }

  lemma U64Back(s: seq<byte>)
    requires |s| == 8
    ensures BE(U64(s), 8) == s
  {
    BEofFromBE(s);
  }

  // ----- Where everything is -----

  lemma {:induction false} FlatAt(rows: seq<seq<byte>>, width: nat, i: nat)
    requires width > 0 && AllWide(rows, width) && i < |rows|
    ensures 0 <= width * i <= width * i + width <= |Flat(rows)| && Flat(rows)[width * i..width * i + width] == rows[i]
  {
    var s := Flat(rows);
    if i == 0 {
      assert s[..width] == rows[0];
    } else {
      FlatAt(rows[1..], width, i - 1);
      assert width * i == width + width * (i - 1);
      assert s[width..] == Flat(rows[1..]);
      assert s[width * i..width * i + width] == s[width..][width * (i - 1)..width * (i - 1) + width];
    }
  }

  /** Ten octets of epoch and count, then the rows one after the other. */
  lemma TableLayout(epoch: uint64, rows: seq<seq<byte>>, width: nat, i: nat)
    requires width > 0 && AllWide(rows, width) && i < |rows| <= MAX_ENTRIES
    ensures var p := EncodeTable(epoch, rows);
            && |p| >= 10 + width * i + width >= 10 + width * i >= 10
            && FromBE(p[..8]) == epoch && FromBE(p[8..10]) == |rows| && p[10 + width * i..10 + width * i + width] == rows[i]
  {
    var p := EncodeTable(epoch, rows);
    FlatAt(rows, width, i);
    Slices([], BE(epoch, 8), BE(|rows|, 2) + Flat(rows));
    Slices(BE(epoch, 8), BE(|rows|, 2), Flat(rows));
    assert p[..8] == BE(epoch, 8) && p[8..10] == BE(|rows|, 2) && p[10..] == Flat(rows);
    assert p[10 + width * i..10 + width * i + width] == p[10..][width * i..width * i + width];
    Fixed(epoch, []);
    Fixed(|rows|, []);
  }

  /** An entry of a summary: eight octets of id, the kind and the state. */
  lemma SummaryLayout(s: Summary, i: nat)
    requires ValidSummary(s) && i < |s.entries|
    ensures var p := EncodeSummary(s).value;
            && |p| >= 20 + 10 * i && FromBE(p[..8]) == s.epoch && FromBE(p[8..10]) == |s.entries|
            && FromBE(p[10 + 10 * i..18 + 10 * i]) == s.entries[i].id
            && p[18 + 10 * i] == s.entries[i].kind && p[19 + 10 * i] == s.entries[i].state
  {
    var p, row := EncodeSummary(s).value, EncodeEntry(s.entries[i]);
    TableLayout(s.epoch, Rows(s.entries), ENTRY_SIZE, i);
    var at := p[10 + 10 * i..20 + 10 * i];
    assert at == row && at[..8] == p[10 + 10 * i..18 + 10 * i] && at[8] == p[18 + 10 * i] && at[9] == p[19 + 10 * i];
    Fixed(s.entries[i].id, []);
    assert row[..8] == BE(s.entries[i].id, 8);
  }

  lemma AckLayout(a: Ack, i: nat)
    requires ValidAck(a) && i < |a.ids|
    ensures var p := EncodeAck(a).value;
            && |p| >= 18 + 8 * i && FromBE(p[..8]) == a.epoch && FromBE(p[8..10]) == |a.ids|
            && FromBE(p[10 + 8 * i..18 + 8 * i]) == a.ids[i]
  {
    TableLayout(a.epoch, IdRows(a.ids), ID_SIZE, i);
    Fixed(a.ids[i], []);
  }

  /** ATTACH: the token with its length in two octets, then the last epoch. ATTACH_OK: epoch, capabilities, instance. */
  lemma AttachLayout(a: Attach, epoch: uint64, capabilities: uint64, instance: uint64)
    requires ValidAttach(a)
    ensures var p, n := EncodeAttach(a).value, |a.token|;
            |p| == n + 10 && FromBE(p[..2]) == n && p[2..2 + n] == a.token && FromBE(p[2 + n..]) == a.lastEpoch
    ensures var p := EncodeAttachOKWithInstance(epoch, capabilities, instance);
            |p| == 24 && FromBE(p[..8]) == epoch && FromBE(p[8..16]) == capabilities && FromBE(p[16..]) == instance
  {
    Slices(BE(|a.token|, 2), a.token, BE(a.lastEpoch, 8));
    Slices(BE(epoch, 8), BE(capabilities, 8), BE(instance, 8));
    Fixed(|a.token|, []);
    Fixed(a.lastEpoch, []);
    Fixed(epoch, []);
    Fixed(capabilities, []);
    Fixed(instance, []);
  }

  // ----- The loops -----

  lemma {:induction false} FlatSnoc(rows: seq<seq<byte>>, row: seq<byte>)
    ensures Flat(rows + [row]) == Flat(rows) + row
  {
    if rows == [] {
      assert rows + [row] == [row] && [row][1..] == [];
    } else {
      FlatSnoc(rows[1..], row);
      assert (rows + [row])[1..] == rows[1..] + [row];
    }
  }

  lemma FlatNext(all: seq<seq<byte>>, n: nat)
    requires n < |all|
    ensures Flat(all[..n + 1]) == Flat(all[..n]) + all[n]
  {
    assert all[..n + 1] == all[..n] + [all[n]];
    FlatSnoc(all[..n], all[n]);
  }

  /** EncodeSummary as it runs. */
  method MakeSummary(s: Summary) returns (r: Option<seq<byte>>)
    ensures r == EncodeSummary(s)
  {
    if |s.entries| > MAX_ENTRIES { return None; }
    ghost var rows := Rows(s.entries);
    var head := BE(s.epoch, 8) + BE(|s.entries|, 2);
    var payload := [];
    var n := 0;
    while n < |s.entries|
      invariant 0 <= n <= |s.entries| && payload == Flat(rows[..n])
      invariant forall i :: 0 <= i < n ==> ValidEntry(s.entries[i])
      invariant forall i, j :: 0 <= i < j < n ==> s.entries[i].id < s.entries[j].id
    {
      var e := s.entries[n];
      if !ValidEntry(e) { return None; }
      if n > 0 && e.id <= s.entries[n - 1].id {
        assert IDs(s.entries)[n - 1] >= IDs(s.entries)[n];
        return None;
      }
      FlatNext(rows, n);
      payload := payload + EncodeEntry(e);
      n := n + 1;
    }
    assert rows[..n] == rows;
    return Some(head + payload);
  }

  /** The next row is at the front of what is left. */
  lemma NextRow(rest: seq<byte>, width: nat, rows: seq<seq<byte>>, n: nat)
    requires 0 < width <= |rest| && n < |rows| && Split(rest, width) == rows[n..]
    ensures rest[..width] == rows[n] && Split(rest[width..], width) == rows[n + 1..]
  {
    assert rows[n..][0] == rows[n] && rows[n..][1..] == rows[n + 1..];
    assert Split(rest, width)[1..] == Split(rest[width..], width);
  }

  lemma NotInOrder(all: seq<Entry>, n: nat)
    requires 0 < n < |all| && all[n].id <= all[n - 1].id
    ensures !ValidEntries(all)
  {
    assert IDs(all)[n - 1] >= IDs(all)[n];
  }

  lemma InOrder(all: seq<Entry>)
    requires (forall i :: 0 <= i < |all| ==> ValidEntry(all[i])) && (forall i, j :: 0 <= i < j < |all| ==> all[i].id < all[j].id)
    ensures ValidEntries(all)
  {
  }

  /** The loop of DecodeSummary, row by row. */
  method ParseEntries(p: seq<byte>, count: nat, ghost all: seq<Entry>) returns (r: Option<seq<Entry>>)
    requires |p| == TABLE_HEADER + ENTRY_SIZE * count
    requires AllWide(Split(p[10..], ENTRY_SIZE), ENTRY_SIZE) && all == Entries(Split(p[10..], ENTRY_SIZE)) && |all| == count
    ensures r == if ValidEntries(all) then Some(all) else None
  {
    var entries: seq<Entry> := [];
    var rest := p[10..];
    ghost var rows := Split(rest, ENTRY_SIZE);
    while |entries| < count
      invariant |entries| <= count && entries == all[..|entries|]
      invariant |rest| == ENTRY_SIZE * (count - |entries|) && Split(rest, ENTRY_SIZE) == rows[|entries|..]
      invariant forall i :: 0 <= i < |entries| ==> ValidEntry(all[i])
      invariant forall i, j :: 0 <= i < j < |entries| ==> all[i].id < all[j].id
      decreases count - |entries|
    {
      var n := |entries|;
      NextRow(rest, ENTRY_SIZE, rows, n);
      var e := DecodeEntry(rest[..ENTRY_SIZE]);
      rest := rest[ENTRY_SIZE..];
      assert e == all[n];
      if !ValidEntry(e) { return None; }
      if n > 0 && e.id <= entries[n - 1].id {
        NotInOrder(all, n);
        return None;
      }
      entries := entries + [e];
    }
    InOrder(all);
    assert entries == all;
    return Some(entries);
  }

  /** DecodeSummary as it runs. */
  method ParseSummary(p: seq<byte>) returns (r: Option<Summary>)
    ensures r == DecodeSummary(p)
  {
    if |p| < TABLE_HEADER || (|p| - TABLE_HEADER) % ENTRY_SIZE != 0 { return None; }
    var count := FromBE(p[8..10]);
    if count > MAX_ENTRIES || |p| != TABLE_HEADER + ENTRY_SIZE * count { return None; }
    TableAfterDecode(p, ENTRY_SIZE);
    FlatOfSplit(p[10..], ENTRY_SIZE, count);
    var entries := ParseEntries(p, count, Entries(Split(p[10..], ENTRY_SIZE)));
    if entries.None? { return None; }
    return Some(Summary(U64(p[..8]), entries.value));
  }

  /** EncodeResumeAck as it runs. */
  method MakeAck(a: Ack) returns (r: Option<seq<byte>>)
    ensures r == EncodeAck(a)
  {
    if |a.ids| > MAX_ENTRIES { return None; }
    ghost var rows := IdRows(a.ids);
    var payload := [];
    var previous: uint64 := 0;
    var n := 0;
    while n < |a.ids|
      invariant 0 <= n <= |a.ids| && payload == Flat(rows[..n]) && (n > 0 ==> previous == a.ids[n - 1])
      invariant forall i :: 0 <= i < n ==> a.ids[i] != 0
      invariant forall i, j :: 0 <= i < j < n ==> a.ids[i] < a.ids[j]
    {
      var id := a.ids[n];
      if id == 0 { return None; }
      if n > 0 && id <= previous {
        assert a.ids[n - 1] >= a.ids[n];
        return None;
      }
      previous := id;
      FlatNext(rows, n);
      payload := payload + BE(id, 8);
      n := n + 1;
    }
    assert rows[..n] == rows;
    return Some(BE(a.epoch, 8) + BE(|a.ids|, 2) + payload);
  }

  /** The loop of DecodeResumeAck. */
  method ParseIds(p: seq<byte>, count: nat, ghost all: seq<uint64>) returns (r: Option<seq<uint64>>)
    requires |p| == TABLE_HEADER + ID_SIZE * count
    requires AllWide(Split(p[10..], ID_SIZE), ID_SIZE) && all == RowIds(Split(p[10..], ID_SIZE)) && |all| == count
    ensures r == if ValidIds(all) then Some(all) else None
  {
    var ids: seq<uint64> := [];
    var rest := p[10..];
    ghost var rows := Split(rest, ID_SIZE);
    while |ids| < count
      invariant |ids| <= count && ids == all[..|ids|]
      invariant |rest| == ID_SIZE * (count - |ids|) && Split(rest, ID_SIZE) == rows[|ids|..]
      invariant forall i :: 0 <= i < |ids| ==> all[i] != 0
      invariant forall i, j :: 0 <= i < j < |ids| ==> all[i] < all[j]
      decreases count - |ids|
    {
      var n := |ids|;
      NextRow(rest, ID_SIZE, rows, n);
      var id := U64(rest[..ID_SIZE]);
      rest := rest[ID_SIZE..];
      assert id == all[n];
      if id == 0 || (n > 0 && id <= ids[n - 1]) { return None; }
      ids := ids + [id];
    }
    assert ids == all;
    return Some(ids);
  }

  /** DecodeResumeAck as it runs. */
  method ParseAck(p: seq<byte>) returns (r: Option<Ack>)
    ensures r == DecodeAck(p)
  {
    if |p| < TABLE_HEADER || (|p| - TABLE_HEADER) % ID_SIZE != 0 { return None; }
    var count := FromBE(p[8..10]);
    if count > MAX_ENTRIES || |p| != TABLE_HEADER + ID_SIZE * count { return None; }
    TableAfterDecode(p, ID_SIZE);
    FlatOfSplit(p[10..], ID_SIZE, count);
    var ids := ParseIds(p, count, RowIds(Split(p[10..], ID_SIZE)));
    if ids.None? { return None; }
    return Some(Ack(U64(p[..8]), ids.value));
  }

  // ----- The acknowledgement check -----

  ghost predicate AllKnown(s: Summary, ids: seq<uint64>) { forall i :: 0 <= i < |ids| ==> ids[i] in IDs(s.entries) }

  /** An increasing list within an increasing list is no longer than it. */
  lemma {:induction false} NoLonger(ids: seq<uint64>, all: seq<uint64>)
    requires Increasing(ids) && Increasing(all) && forall i :: 0 <= i < |ids| ==> ids[i] in all
    ensures |ids| <= |all|
  {
    if ids != [] {
      var n := |ids| - 1;
      assert ids[n] in all;
      var m :| 0 <= m < |all| && all[m] == ids[n];
      forall i | 0 <= i < n ensures ids[..n][i] in all[..m] {
        var j :| 0 <= j < |all| && all[j] == ids[i];
        assert all[..m][j] == ids[i];
      }
      NoLonger(ids[..n], all[..m]);
    }
  }

  /** The early length check never rejects a true subset. */
  lemma SubsetIsNoLonger(s: Summary, ids: seq<uint64>)
    requires Increasing(IDs(s.entries)) && Increasing(ids) && AllKnown(s, ids)
    ensures |ids| <= |s.entries|
  {
    NoLonger(ids, IDs(s.entries));
  }

  /** One forward scan over both lists accepts exactly the right acknowledgements. */
  method ValidateResumeAck(s: Summary, epoch: uint64, ids: seq<uint64>) returns (ok: bool)
    requires Increasing(IDs(s.entries)) && Increasing(ids)
    ensures ok <==> epoch == s.epoch && AllKnown(s, ids)
  {
    if epoch != s.epoch { return false; }
    if |ids| > |s.entries| {
      if AllKnown(s, ids) { SubsetIsNoLonger(s, ids); }
      return false;
    }
    var at := 0;
    var n := 0;
    while n < |ids|
      invariant 0 <= n <= |ids| && 0 <= at <= |s.entries|
      invariant forall i :: 0 <= i < n ==> ids[i] in IDs(s.entries)
      invariant n > 0 ==> forall j :: 0 <= j < at ==> s.entries[j].id <= ids[n - 1]
      invariant n == 0 ==> at == 0
    {
      while at < |s.entries| && s.entries[at].id < ids[n]
        invariant 0 <= at <= |s.entries|
        invariant forall j :: 0 <= j < at ==> s.entries[j].id < ids[n]
      {
        at := at + 1;
      }
      if at == |s.entries| || s.entries[at].id != ids[n] {
        forall j | 0 <= j < |s.entries| ensures IDs(s.entries)[j] != ids[n] {
          assert j > at ==> IDs(s.entries)[at] < IDs(s.entries)[j];
        }
        return false;
      }
      assert IDs(s.entries)[at] == ids[n];
      at := at + 1;
      n := n + 1;
    }
    return true;
  }

  // ----- Messages -----

  const MAGIC: seq<byte> := [0x57, 0x57, 0x41, 0x31]
  const HELLO: byte := 1
  const ATTACH: byte := 2
  const ATTACH_OK: byte := 3
  const ATTACH_ERROR: byte := 4
  const REGISTRY_SUMMARY: byte := 5
  const RESUME_ACK: byte := 6

  datatype Message = Message(kind: byte, payload: seq<byte>)

  predicate ValidMessage(m: Message) {
    && HELLO <= m.kind <= RESUME_ACK && |m.payload| <= MAX_PAYLOAD
    && (m.kind == HELLO ==> |m.payload| == 8)
    && (m.kind == ATTACH ==> DecodeAttach(m.payload).Some?)
    && (m.kind == ATTACH_OK ==> |m.payload| == 16 || |m.payload| == 24)
    && (m.kind == ATTACH_ERROR ==> 1 <= |m.payload| <= MAX_ERROR)
    && (m.kind == REGISTRY_SUMMARY ==> DecodeSummary(m.payload).Some?)
    && (m.kind == RESUME_ACK ==> DecodeAck(m.payload).Some?)
  }

  function Header(kind: byte, length: nat): (h: seq<byte>)
    ensures |h| == HEADER_SIZE
  {
    MAGIC + [1, kind, 0, 0] + BE(length, 4)
  }

  function EncodeMessage(m: Message): (s: seq<byte>)
    ensures |s| == HEADER_SIZE + |m.payload|
  {
    Header(m.kind, |m.payload|) + m.payload
  }

  datatype HeaderFields = HeaderFields(kind: byte, length: nat)

  /** The reserved octets are not looked at. */
  function ParseHeader(h: seq<byte>): Option<HeaderFields>
    requires |h| == HEADER_SIZE
  {
    if h[..4] != MAGIC || h[4] != 1 || FromBE(h[8..12]) > MAX_PAYLOAD then None
    else Some(HeaderFields(h[5], FromBE(h[8..12])))
  }

  function ReadMessage(s: seq<byte>): ReadResult<Message> {
    if s == [] then Failed(EndOfStream)
    else if |s| < HEADER_SIZE then Failed(UnexpectedEnd)
    else
      match ParseHeader(s[..HEADER_SIZE])
      case None => Failed(Malformed)
      case Some(h) =>
        var end := HEADER_SIZE + h.length;
        if |s| < end then Failed(CutError(HEADER_SIZE, |s|))
        else
          var m := Message(h.kind, s[HEADER_SIZE..end]);
          if ValidMessage(m) then Got(m, s[end..]) else Failed(Malformed)
  }

  lemma ParseAfterHeader(kind: byte, length: nat)
    requires length <= MAX_PAYLOAD
    ensures ParseHeader(Header(kind, length)) == Some(HeaderFields(kind, length))
  {
    var h := Header(kind, length);
    assert h[..4] == MAGIC && h[8..12] == BE(length, 4);
    Fixed(length, []);
  }

  /** Where everything is in a written message. */
  lemma MessageLayout(m: Message)
    requires ValidMessage(m)
    ensures var s := EncodeMessage(m);
            && |s| == 12 + |m.payload| && s[..4] == [0x57, 0x57, 0x41, 0x31] && s[4] == 1 && s[5] == m.kind && s[6..8] == [0, 0]
            && FromBE(s[8..12]) == |m.payload| && s[12..] == m.payload
  {
    var head := MAGIC + [1, m.kind, 0, 0];
    Slices(head, BE(|m.payload|, 4), m.payload);
    assert EncodeMessage(m) == head + BE(|m.payload|, 4) + m.payload;
    Fixed(|m.payload|, []);
  }

  lemma ReadAfterEncode(m: Message, rest: seq<byte>)
    requires ValidMessage(m)
    ensures ReadMessage(EncodeMessage(m) + rest) == Got(m, rest)
  {
    var h := Header(m.kind, |m.payload|);
    ParseAfterHeader(m.kind, |m.payload|);
    Slices(h, m.payload, rest);
  }

  /** Whatever reads as a message is valid and was written as one, up to the two reserved octets. */
  lemma EncodeAfterRead(s: seq<byte>)
    requires ReadMessage(s).Got?
    ensures var m, rest := ReadMessage(s).item, ReadMessage(s).rest;
            && ValidMessage(m) && |s| >= 12
            && s == [0x57, 0x57, 0x41, 0x31, 1, m.kind] + s[6..8] + BE(|m.payload|, 4) + m.payload + rest
  {
    var m, rest, h := ReadMessage(s).item, ReadMessage(s).rest, s[..HEADER_SIZE];
    HeaderAfterParse(h);
    assert h[6..8] == s[6..8] && s == h + m.payload + rest;
  }

  lemma HeaderAfterParse(h: seq<byte>)
    requires |h| == HEADER_SIZE && ParseHeader(h).Some?
    ensures var f := ParseHeader(h).value; h == [0x57, 0x57, 0x41, 0x31, 1, f.kind] + h[6..8] + BE(f.length, 4)
  {
    BEofFromBE(h[8..12]);
    SplitHeader(h);
  }

  lemma SplitHeader<T>(h: seq<T>)
    requires |h| == HEADER_SIZE
    ensures h == h[..4] + [h[4], h[5]] + h[6..8] + h[8..12]
  {
  }

  lemma ReadCutMessage(m: Message, k: nat)
    requires ValidMessage(m) && k < |EncodeMessage(m)|
    ensures ReadMessage(EncodeMessage(m)[..k]) == Failed(CutError(HEADER_SIZE, k))
  {
    if k >= HEADER_SIZE {
      var h := Header(m.kind, |m.payload|);
      ParseAfterHeader(m.kind, |m.payload|);
      CutFirst(h, m.payload, k);
      assert (h + m.payload[..k - HEADER_SIZE])[..HEADER_SIZE] == h;
    }
  }

  lemma MessageCodec()
    ensures Codec(ValidMessage, EncodeMessage, ReadMessage, HEADER_SIZE)
  {
    forall m: Message, rest: seq<byte> | ValidMessage(m) ensures ReadMessage(EncodeMessage(m) + rest) == Got(m, rest) {
      ReadAfterEncode(m, rest);
    }
    forall m: Message, k: nat | ValidMessage(m) && k < |EncodeMessage(m)|
      ensures ReadMessage(EncodeMessage(m)[..k]) == Failed(CutError(HEADER_SIZE, k))
    {
      ReadCutMessage(m, k);
    }
  }

  /** Any conversation of valid messages is read back exactly. */
  lemma ReadAllMessages(ms: seq<Message>)
    requires AllValid(ValidMessage, ms)
    ensures ReadAll(ReadMessage, EncodeAll(EncodeMessage, ms)) == (ms, EndOfStream)
  {
    MessageCodec();
    ReadAllRoundTrip(ValidMessage, EncodeMessage, ReadMessage, HEADER_SIZE, ms);
  }
}
