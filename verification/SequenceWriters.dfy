/** Runs of the encoder: every packet it writes is the abstract sequence's, byte for byte. */
module SequenceWriters {
  import opened Prelude
  import opened Wire
  import opened Interning
  import opened Events
  import opened InternedData
  import opened PacketFormats
  import opened Packets
  import opened Sequences
  import opened SequenceStates

  class SequenceWriter {
    const sequence: SequenceState

    /** The abstract state of the sequence. */
    ghost var st: State

    constructor (p: Params)
      ensures Valid() && st == FRESH && sequence.p == p
      ensures fresh(sequence) && fresh(sequence.eventNames) && fresh(sequence.annotationNames)
      ensures fresh(sequence.categories) && fresh(sequence.scratch)
    {
      sequence := new SequenceState(p);
      st := FRESH;
      new;
      FreshIsCoherent();
    }

    ghost predicate Valid()
      reads this, sequence, sequence.eventNames, sequence.annotationNames, sequence.categories, sequence.scratch
    {
      && sequence.Valid() && Coherent(st)
      && sequence.HeldTables() == st.tables && sequence.firstPacketDone == st.started
      && (if st.started then sequence.lastTimestamp == st.last else sequence.packetPrefix == None && st == FRESH)
    }

    /** Writes one packet into the scratch buffer; false where the source panics. */
    method Write(e: Emission) returns (ok: bool)
      requires Valid() && (e.Initial? <==> !st.started)
      modifies this, sequence, sequence.eventNames, sequence.annotationNames, sequence.categories, sequence.scratch
      ensures var (st', fields) := Emit(sequence.p, old(st), e);
              && ok == Fits(Message(PACKET, fields))
              && (ok ==> Valid() && st == st' && sequence.scratch.buf == EncodeField(Message(PACKET, fields)))
    {
      ghost var st' := Emit(sequence.p, st, e).0;
      if e.Initial? {
        ok := sequence.FirstPacket(e.raw, e.opening);
      } else {
        ok := sequence.Packet(e.raw, e.body, st);
      }
      st := st';
    }

    /**
     Writes a whole run, the same scratch buffer cut back and refilled for every packet:
     the bytes are those of encoding each packet afresh.
     */
    method WriteAll(es: seq<Emission>) returns (ok: bool, packets: seq<seq<byte>>)
      requires Valid() && Ordered(st.started, es)
      modifies this, sequence, sequence.eventNames, sequence.annotationNames, sequence.categories, sequence.scratch
      ensures var (st', all) := EmitAll(sequence.p, old(st), es);
              && ok == PacketsFit(all)
              && (ok ==> Valid() && st == st' && packets == Framings(all))
    {
      packets := [];
      var i := 0;
      while i < |es|
        invariant 0 <= i <= |es| && Valid() && Ordered(st.started, es[i..])
        invariant Remains(sequence.p, old(st), es, packets, st, es[i..])
      {
        RemainsStep(sequence.p, old(st), es, packets, st, es[i..]);
        assert es[i..][1..] == es[i + 1..];
        ok := Write(es[i]);
        if !ok {
          return;
        }
        packets := packets + [sequence.scratch.buf];
        i := i + 1;
      }
      ok := true;
    }
  }

  /** Every packet is within the length its four-byte slot can hold. */
  ghost predicate PacketsFit(packets: seq<seq<Field>>) {
    forall fields :: fields in packets ==> Fits(Message(PACKET, fields))
  }

  function Framings(packets: seq<seq<Field>>): (r: seq<seq<byte>>)
    ensures |r| == |packets|
  {
    seq(|packets|, i requires 0 <= i < |packets| => EncodeField(Message(PACKET, packets[i])))
  }

  /** What has been written, and what the rest will add, make the whole run. */
  ghost predicate Remains(p: Params, first: State, es: seq<Emission>, packets: seq<seq<byte>>, st: State,
                          rest: seq<Emission>)
    requires Coherent(first) && Ordered(first.started, es) && Coherent(st) && Ordered(st.started, rest)
  {
    var (last, all) := EmitAll(p, first, es);
    var (last', all') := EmitAll(p, st, rest);
    last == last' && Framings(all) == packets + Framings(all') && (PacketsFit(all) <==> PacketsFit(all'))
  }

  lemma RemainsStep(p: Params, first: State, es: seq<Emission>, packets: seq<seq<byte>>, st: State, rest: seq<Emission>)
    requires Coherent(first) && Ordered(first.started, es) && Coherent(st) && Ordered(st.started, rest) && rest != []
    requires Remains(p, first, es, packets, st, rest)
    ensures Ordered(true, rest[1..]) && (rest[0].Initial? <==> !st.started)
    ensures var (st', fields) := Emit(p, st, rest[0]);
            && (!Fits(Message(PACKET, fields)) ==> !PacketsFit(EmitAll(p, first, es).1))
            && (Fits(Message(PACKET, fields)) ==>
                  Remains(p, first, es, packets + [EncodeField(Message(PACKET, fields))], st', rest[1..]))
  {
    OrderedTail(st.started, rest);
    var (st', fields) := Emit(p, st, rest[0]);
    var others := EmitAll(p, st', rest[1..]).1;
    assert EmitAll(p, st, rest).1 == [fields] + others;
    FramingsCons(fields, others);
    var framed := EncodeField(Message(PACKET, fields));
    assert packets + ([framed] + Framings(others)) == packets + [framed] + Framings(others);
  }

  lemma FramingsCons(fields: seq<Field>, others: seq<seq<Field>>)
    ensures Framings([fields] + others) == [EncodeField(Message(PACKET, fields))] + Framings(others)
    ensures PacketsFit([fields] + others) <==> Fits(Message(PACKET, fields)) && PacketsFit(others)
  {
    var all := [fields] + others;
    assert all[0] == fields && forall i :: 0 <= i < |others| ==> all[i + 1] == others[i];
    assert forall f :: f in all <==> f == fields || f in others;
  }
}
