/** Attachment generations (internal/transport/attach/registry.go) and the two sides of the resume handshake
    (internal/transport/attach/wire.go:367-450, 462-571). */
module AttachRegistry {
  import opened Bytes
  import opened SelfDelimiting
  import opened AttachWire

  /** Counters skip zero when they wrap. */
  function NextNonZero(n: uint64): (r: uint64)
    ensures r != 0 && (n < TWO64 - 1 ==> r == n + 1)
  {
    if n == TWO64 - 1 then 1 else n + 1
  }

  datatype AttachError = ErrClosed | ErrToken

  class Registry {
    const token: seq<byte>
    const instance: uint64
    var epoch: uint64
    var current: Attachment?
    var closed: bool

    constructor (token: seq<byte>, instance: uint64)
      ensures Valid() && fresh(this) && this.token == token && this.instance == instance && epoch == 0 && current == null && !closed
    {
      this.token, this.instance, epoch, current, closed := token, instance, 0, null, false;
    }

    /** The current attachment is the newest, and has not been detached. */
    ghost predicate Valid()
      reads this, current
    {
      && (closed ==> current == null)
      && (current != null ==> current.registry == this && current.epoch == epoch && epoch != 0 && !current.finished)
    }

    /** A new generation replaces the current one; a refused attach changes nothing. */
    method Attach(offered: seq<byte>) returns (a: Attachment?, error: Option<AttachError>)
      requires Valid()
      modifies this
      ensures Valid() && closed == old(closed)
      ensures a == null <==> old(closed) || offered == [] || offered != token
      ensures error == if old(closed) then Some(ErrClosed) else if a == null then Some(ErrToken) else None
      ensures a == null ==> current == old(current) && epoch == old(epoch)
      ensures a != null ==> fresh(a) && current == a && epoch == NextNonZero(old(epoch)) && a.epoch == epoch && a.registry == this
    {
      if closed { return null, Some(ErrClosed); }
      if offered == [] || offered != token { return null, Some(ErrToken); }
      epoch := NextNonZero(epoch);
      a := new Attachment(this, epoch);
      current := a;
      return a, None;
    }

    method Close()
      requires Valid()
      modifies this
      ensures Valid() && closed && current == null && epoch == old(epoch)
    {
      closed, current := true, null;
    }

    /** Zero when nothing is attached. */
    method CurrentEpoch() returns (e: uint64)
      requires Valid()
      ensures current == null ==> e == 0
      ensures current != null ==> e == epoch && e != 0
    {
      if current == null { return 0; }
      return current.epoch;
    }
  }

  class Attachment {
    const registry: Registry
    const epoch: uint64
    var finished: bool
    var stale: bool

    constructor (registry: Registry, epoch: uint64)
      ensures this.registry == registry && this.epoch == epoch && !finished && !stale
    {
      this.registry, this.epoch, finished, stale := registry, epoch, false, false;
    }

    /** Acts once and answers the same ever after; afterwards this attachment is not current, and no newer one was
        touched. */
    method Detach() returns (wasStale: bool)
      requires registry.Valid()
      modifies this, registry`current
      ensures registry.Valid() && finished && wasStale == stale
      ensures registry.current != this
      ensures old(registry.current) != this ==> registry.current == old(registry.current)
      ensures old(registry.current) == this ==> registry.current == null
      ensures if old(finished) then stale == old(stale) else stale == (old(registry.current) != this)
    {
      if !finished {
        finished := true;
        if registry.current != this {
          stale := true;
        } else {
          registry.current, stale := null, false;
        }
      }
      return stale;
    }
  }

  /** What may happen to the registry between two steps of a handshake. Detaching an attachment that is not current leaves
      the registry alone, so the current one stands for all others. */
  datatype Event = OtherAttach(token: seq<byte>) | OtherDetach | CloseRegistry

  method Interfere(r: Registry, events: seq<Event>, mine: Attachment)
    requires r.Valid() && mine.registry == r
    modifies r, r.current
    ensures r.Valid() && (r.current != old(r.current) ==> r.current == null || fresh(r.current))
    ensures mine.finished == old(mine.finished) && mine.stale == old(mine.stale)
  {
    var n := 0;
    while n < |events|
      invariant 0 <= n <= |events| && r.Valid() && mine.finished == old(mine.finished) && mine.stale == old(mine.stale)
      invariant r.current != old(r.current) ==> r.current == null || fresh(r.current)
    {
      match events[n] {
        case OtherAttach(token) => var a, e := r.Attach(token);
        case OtherDetach =>
          if r.current != null && r.current != mine { var wasStale := r.current.Detach(); }
        case CloseRegistry => r.Close();
      }
      n := n + 1;
    }
  }

  // ----- Both sides -----

  /** The payloads a broker sends to a connector it lets in. */
  function Offer(epoch: uint64, capabilities: uint64, instance: uint64, s: Summary): seq<Message>
    requires ValidSummary(s)
  {
    [Message(ATTACH_OK, EncodeAttachOKWithInstance(epoch, capabilities, instance)),
     Message(REGISTRY_SUMMARY, EncodeSummary(s).value)]
  }

  datatype Resumed = Resumed(epoch: uint64, capabilities: uint64, instance: uint64, summary: Summary, ack: Message)

  /** The connector after its HELLO and ATTACH: it reads two messages and acknowledges every entry. */
  method ClientResume(ok: Message, table: Message) returns (r: Option<Resumed>)
    requires ValidMessage(ok) && ValidMessage(table)
    ensures r.Some? <==> ok.kind == ATTACH_OK && table.kind == REGISTRY_SUMMARY
                         && DecodeSummary(table.payload).value.epoch == DecodeAttachOK(ok.payload).value.0
    ensures r.Some? ==> var s := DecodeSummary(table.payload).value;
                        && r.value.summary == s
                        && (r.value.epoch, r.value.capabilities, r.value.instance) == DecodeAttachOK(ok.payload).value
                        && r.value.ack == Message(RESUME_ACK, EncodeTable(s.epoch, IdRows(IDs(s.entries))))
                        && ValidMessage(r.value.ack)
  {
    if ok.kind != ATTACH_OK || table.kind != REGISTRY_SUMMARY { return None; }
    var opening := DecodeAttachOK(ok.payload).value;
    var s := ParseSummary(table.payload);
    SummaryAfterDecode(table.payload);
    var known := ValidateResumeAck(s.value, opening.0, IDs(s.value.entries));
    if !known { return None; }
    var p := MakeAck(Ack(opening.0, IDs(s.value.entries)));
    DecodeAfterAck(Ack(opening.0, IDs(s.value.entries)));
    AckSize(Ack(opening.0, IDs(s.value.entries)));
    return Some(Resumed(opening.0, opening.1, opening.2, s.value, Message(RESUME_ACK, p.value)));
  }

  lemma AckSize(a: Ack)
    requires ValidAck(a)
    ensures |EncodeAck(a).value| <= MAX_PAYLOAD
  {
    SplitOfFlat(IdRows(a.ids), ID_SIZE);
  }

  lemma SummarySize(s: Summary)
    requires ValidSummary(s)
    ensures |EncodeSummary(s).value| <= MAX_PAYLOAD
  {
    SplitOfFlat(Rows(s.entries), ENTRY_SIZE);
  }

  /** The message acknowledges this epoch and only known entries. */
  ghost predicate Acknowledges(m: Message, s: Summary) {
    && m.kind == RESUME_ACK && DecodeAck(m.payload).Some?
    && DecodeAck(m.payload).value.epoch == s.epoch && AllKnown(s, DecodeAck(m.payload).value.ids)
  }

  /** What the broker makes of the acknowledgement. */
  method CheckAck(s: Summary, m: Message) returns (ok: bool)
    requires ValidSummary(s) && ValidMessage(m)
    ensures ok <==> Acknowledges(m, s)
  {
    if m.kind != RESUME_ACK { return false; }
    var a := ParseAck(m.payload);
    AckAfterDecode(m.payload);
    ok := ValidateResumeAck(s, a.value.epoch, a.value.ids);
  }

  /** An honest connector that reads what the broker wrote ends with the same epoch and summary, and the broker
      accepts the acknowledgement it reads back. */
  method HonestResume(epoch: uint64, capabilities: uint64, instance: uint64, s: Summary) returns (r: Option<Resumed>, accepted: bool)
    requires ValidSummary(s) && s.epoch == epoch
    ensures r.Some? && r.value.epoch == epoch && r.value.summary == s && accepted
    ensures ValidMessage(r.value.ack) && Acknowledges(r.value.ack, s)
    ensures ReadAll(ReadMessage, EncodeAll(EncodeMessage, Offer(epoch, capabilities, instance, s)))
            == (Offer(epoch, capabilities, instance, s), EndOfStream)
    ensures ReadMessage(EncodeMessage(r.value.ack)) == Got(r.value.ack, [])
  {
    var offer := Offer(epoch, capabilities, instance, s);
    OfferIsValid(epoch, capabilities, instance, s);
    ReadAllMessages(offer);
    r := ClientResume(offer[0], offer[1]);
    ReadAfterEncode(r.value.ack, []);
    assert EncodeMessage(r.value.ack) + [] == EncodeMessage(r.value.ack);
    HonestAck(s);
    accepted := CheckAck(s, r.value.ack);
  }

  lemma OfferIsValid(epoch: uint64, capabilities: uint64, instance: uint64, s: Summary)
    requires ValidSummary(s)
    ensures var offer := Offer(epoch, capabilities, instance, s);
            && AllValid(ValidMessage, offer) && ValidMessage(offer[0]) && ValidMessage(offer[1])
            && DecodeAttachOK(offer[0].payload) == Some((epoch, capabilities, instance)) && DecodeSummary(offer[1].payload) == Some(s)
  {
    AttachOKRoundTrip(epoch, capabilities, instance);
    DecodeAfterSummary(s);
    SummarySize(s);
  }

  lemma HonestAck(s: Summary)
    requires ValidSummary(s)
    ensures DecodeAck(EncodeTable(s.epoch, IdRows(IDs(s.entries)))) == Some(Ack(s.epoch, IDs(s.entries)))
    ensures AllKnown(s, IDs(s.entries))
  {
    DecodeAfterAck(Ack(s.epoch, IDs(s.entries)));
  }

  /** How the connection treats the broker: whether each write succeeds, and what it then reads. */
  datatype Peer = Peer(okSent: bool, summarySent: bool, reply: ReadResult<Message>)

  /** The broker's side, with anything happening to the registry between its steps. `sent` is what it writes to a connector
      it lets in. Success means that the peer acknowledged this very epoch and only known entries; any failure after Attach
      leaves the attachment detached. */
  method ServerResume(r: Registry, capabilities: uint64, entries: seq<Entry>, offered: seq<byte>, peer: Peer, gaps: seq<seq<Event>>)
      returns (session: Attachment?, attached: Attachment?, sent: seq<Message>)
    requires r.Valid() && |gaps| == 3 && (peer.reply.Got? ==> ValidMessage(peer.reply.item))
    modifies r
    ensures r.Valid()
    ensures attached != null <==> !old(r.closed) && offered != [] && offered == r.token
    ensures attached != null ==> fresh(attached) && attached.registry == r && attached.epoch == NextNonZero(old(r.epoch))
    ensures attached == null ==> sent == []
    ensures attached != null ==>
              sent == if peer.okSent && ValidSummary(Summary(attached.epoch, entries))
                      then Offer(attached.epoch, capabilities, r.instance, Summary(attached.epoch, entries))
                      else [Message(ATTACH_OK, BE(attached.epoch, 8) + BE(capabilities, 8) + BE(r.instance, 8))]
    ensures r.current != old(r.current) ==> r.current == null || fresh(r.current)
    ensures session == null && attached != null ==> r.current != attached && attached.finished
    ensures session != null ==> session == attached && !session.finished && peer.reply.Got?
    ensures attached != null ==>
              (session == attached <==>
                 && peer.okSent && peer.summarySent && peer.reply.Got? && ValidSummary(Summary(attached.epoch, entries))
                 && Acknowledges(peer.reply.item, Summary(attached.epoch, entries)))
  {
    session, sent := null, [];
    var error;
    attached, error := r.Attach(offered);
    if attached == null { return; }
    Interfere(r, gaps[0], attached);
    sent := [Message(ATTACH_OK, EncodeAttachOKWithInstance(attached.epoch, capabilities, r.instance))];
    var ok := peer.okSent;
    if ok {
      var s := Summary(attached.epoch, entries);
      var payload := MakeSummary(s);
      ok := payload.Some?;
      if ok { sent := sent + [Message(REGISTRY_SUMMARY, payload.value)]; }
      Interfere(r, gaps[1], attached);
      ok := ok && peer.summarySent && peer.reply.Got?;
      if ok { ok := CheckAck(s, peer.reply.item); }
      Interfere(r, gaps[2], attached);
    }
    if ok {
      session := attached;
    } else {
      var wasStale := attached.Detach();
    }
  }
}
