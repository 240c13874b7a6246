/** Messages across the short-frame link: fragments out, with any frames repeated, and fragments back. */
module Delivery {
  import opened Messages
  import opened Utf8
  import opened Apdu
  import opened Phone

  function Chunks(data: Bytes): (chunks: seq<Bytes>)
    requires 1 <= |data| <= MAX_LOGICAL_BYTES
    ensures 1 <= |chunks| <= 26 && Concat(chunks) == data
    ensures forall c | c in chunks :: 1 <= |c| <= CHUNK_BYTES
  {
    AssembleChunked(data);
    ChunkMessage(data, CHUNK_BYTES).value
  }

  /** The frame of one fragment. */
  function Frame(instruction: Byte, data: Bytes, i: nat): (f: Bytes)
    requires 1 <= |data| <= MAX_LOGICAL_BYTES && i < |Chunks(data)| && Known(instruction)
    ensures ParseApdu(f) == Some(Command(instruction, i, i == |Chunks(data)| - 1, Chunks(data)[i]))
  {
    var c := Command(instruction, i, i == |Chunks(data)| - 1, Chunks(data)[i]);
    assert Chunks(data)[i] in Chunks(data);
    var f := BuildApdu(instruction, i, c.last, c.data).value;
    ParseIffBuilt(f, c);
    f
  }

  /** No frame of this instruction was answered on this connection, and none is pending. */
  ghost predicate Quiet(p: Phone, instruction: Byte) {
    && Pending(p, instruction) == []
    && forall f | f in p.cache && ParseApdu(f).Some? :: ParseApdu(f).value.instruction != instruction
  }

  /** The first k fragments arrived and were answered; nothing else changed. */
  ghost predicate Sending(start: Phone, p: Phone, instruction: Byte, data: Bytes, k: nat)
    requires 1 <= |data| <= MAX_LOGICAL_BYTES && Known(instruction)
  {
    && k < |Chunks(data)|
    && p == start.(fragments := p.fragments, cache := p.cache)
    && Pending(p, instruction) == Chunks(data)[..k]
    && p.fragments - {instruction} == start.fragments - {instruction}
    && (forall i | 0 <= i < |Chunks(data)| :: Frame(instruction, data, i) in p.cache <==> i < k)
    && (forall i | 0 <= i < k :: p.cache[Frame(instruction, data, i)] == OK)
  }

  lemma StartSending(p: Phone, instruction: Byte, data: Bytes)
    requires 1 <= |data| <= MAX_LOGICAL_BYTES && Known(instruction) && Quiet(p, instruction)
    ensures Sending(p, p, instruction, data, 0)
  {
    hide ParseApdu, Chunks;
  }

  lemma FramesDiffer(instruction: Byte, data: Bytes, i: nat, j: nat)
    requires 1 <= |data| <= MAX_LOGICAL_BYTES && Known(instruction) && i < |Chunks(data)| && j < |Chunks(data)|
    ensures Frame(instruction, data, i) == Frame(instruction, data, j) ==> i == j
  {
    hide ParseApdu, BuildApdu, Chunks;
  }

  /** A frame sent again is answered again and changes nothing. */
  lemma RepeatedFrame(start: Phone, p: Phone, instruction: Byte, data: Bytes, k: nat, i: nat)
    requires 1 <= |data| <= MAX_LOGICAL_BYTES && Known(instruction)
    requires Sending(start, p, instruction, data, k) && i < k
    ensures Transceive(p, Frame(instruction, data, i)) == (p, Some(OK))
  {
    hide Frame, Chunks, Process;
  }

  lemma FragmentFits(data: Bytes, k: nat)
    requires 1 <= |data| <= MAX_LOGICAL_BYTES && k < |Chunks(data)|
    ensures Chunks(data)[..k] + [Chunks(data)[k]] == Chunks(data)[..k + 1]
    ensures |Concat(Chunks(data)[..k + 1])| <= MAX_LOGICAL_BYTES
  {
    PrefixLength(Chunks(data), k + 1);
    hide Chunks, Concat;
  }

  lemma FragmentAccepted(start: Phone, p: Phone, instruction: Byte, data: Bytes, k: nat)
    requires 1 <= |data| <= MAX_LOGICAL_BYTES && (instruction == PUT_REQUEST || instruction == PUT_ACK)
    requires Sending(start, p, instruction, data, k) && k + 1 < |Chunks(data)|
    ensures Transceive(p, Frame(instruction, data, k)) ==
            (p.(fragments := p.fragments[instruction := Chunks(data)[..k + 1]],
                cache := p.cache[Frame(instruction, data, k) := OK]), Some(OK))
  {
    FragmentFits(data, k);
    hide Frame, Chunks, ParseApdu, Concat, AcceptMessage;
  }

  lemma SendingNext(start: Phone, p: Phone, q: Phone, instruction: Byte, data: Bytes, k: nat)
    requires 1 <= |data| <= MAX_LOGICAL_BYTES && Known(instruction)
    requires Sending(start, p, instruction, data, k) && k + 1 < |Chunks(data)|
    requires q == p.(fragments := p.fragments[instruction := Chunks(data)[..k + 1]],
                     cache := p.cache[Frame(instruction, data, k) := OK])
    ensures Sending(start, q, instruction, data, k + 1)
  {
    forall i | 0 <= i < |Chunks(data)|
      ensures Frame(instruction, data, i) == Frame(instruction, data, k) <==> i == k
    {
      FramesDiffer(instruction, data, i, k);
    }
    hide Frame, Chunks;
    assert q.fragments - {instruction} == p.fragments - {instruction};
  }

  /** The next fragment but the last is answered with success and kept. */
  lemma NextFrame(start: Phone, p: Phone, instruction: Byte, data: Bytes, k: nat)
    requires 1 <= |data| <= MAX_LOGICAL_BYTES && (instruction == PUT_REQUEST || instruction == PUT_ACK)
    requires Sending(start, p, instruction, data, k) && k + 1 < |Chunks(data)|
    ensures Transceive(p, Frame(instruction, data, k)).1 == Some(OK)
    ensures Sending(start, Transceive(p, Frame(instruction, data, k)).0, instruction, data, k + 1)
  {
    hide Sending, Frame, Chunks, Transceive;
    FragmentAccepted(start, p, instruction, data, k);
    SendingNext(start, p, Transceive(p, Frame(instruction, data, k)).0, instruction, data, k);
  }

  lemma StatusFrame(p: Phone, q: Phone, op: Id, s: Status)
    requires p.codec == q.codec
    ensures StatusReply(p, op, s) == StatusReply(q, op, s)
  {
  }

  /** Fragments pending and answers given do not matter to a whole message. */
  lemma MessageFrame(p: Phone, instruction: Byte, data: Bytes, fragments: map<Byte, seq<Bytes>>, cache: map<Bytes, Bytes>)
    ensures AcceptMessage(p.(fragments := fragments, cache := cache), instruction, data) ==
            (AcceptMessage(p, instruction, data).0.(fragments := fragments, cache := cache),
             AcceptMessage(p, instruction, data).1)
  {
    var q := p.(fragments := fragments, cache := cache);
    var e := p.codec.parse(data);
    if e.Some? && (e.value.message.body.Request? || e.value.message.body.Ack?) {
      StatusFrame(p, q, e.value.message.body.common.op, RequestReceived);
      StatusFrame(p, q, e.value.message.body.common.op, LocallyAccepted);
    }
    hide AckBound, StatusReply, Verifies;
  }

  lemma LastAccepted(start: Phone, p: Phone, instruction: Byte, data: Bytes)
    requires 1 <= |data| <= MAX_LOGICAL_BYTES && (instruction == PUT_REQUEST || instruction == PUT_ACK)
    requires Sending(start, p, instruction, data, |Chunks(data)| - 1)
    ensures Process(p, Frame(instruction, data, |Chunks(data)| - 1)) ==
            AcceptMessage(p.(fragments := p.fragments - {instruction}), instruction, data)
    ensures Frame(instruction, data, |Chunks(data)| - 1) !in p.cache
  {
    var k := |Chunks(data)| - 1;
    FragmentFits(data, k);
    assert Chunks(data)[..k + 1] == Chunks(data);
    hide Frame, Chunks, ParseApdu, Concat, AcceptMessage;
  }

  /** The last fragment hands over the message: the answer and the stored messages are those of the whole message. */
  lemma LastFrame(start: Phone, p: Phone, instruction: Byte, data: Bytes)
    requires 1 <= |data| <= MAX_LOGICAL_BYTES && (instruction == PUT_REQUEST || instruction == PUT_ACK)
    requires Sending(start, p, instruction, data, |Chunks(data)| - 1)
    ensures
      var (q, answer) := Transceive(p, Frame(instruction, data, |Chunks(data)| - 1));
      var (m, whole) := AcceptMessage(start, instruction, data);
      && answer == whole
      && q == m.(fragments := q.fragments, cache := q.cache) && Pending(q, instruction) == []
      && q.fragments == start.fragments - {instruction}
      && (answer.Some? ==>
            forall i | 0 <= i < |Chunks(data)| ::
              Frame(instruction, data, i) in q.cache
              && q.cache[Frame(instruction, data, i)] == if i == |Chunks(data)| - 1 then answer.value else OK)
  {
    var n := |Chunks(data)|;
    LastAccepted(start, p, instruction, data);
    MessageFrame(start, instruction, data, p.fragments - {instruction}, p.cache);
    forall i | 0 <= i < n
      ensures Frame(instruction, data, i) == Frame(instruction, data, n - 1) ==> i == n - 1
    {
      FramesDiffer(instruction, data, i, n - 1);
    }
    hide Frame, Chunks, Process, AcceptMessage;
  }

  // ---------------------------------------------------------------------------------------------
  // Any number of repetitions

  /** A schedule sends each fragment for the first time in order, and earlier ones again at will. */
  predicate InOrder(schedule: seq<nat>, sent: nat)
    decreases |schedule|
  {
    |schedule| == 0 || (schedule[0] <= sent && InOrder(schedule[1..], if schedule[0] == sent then sent + 1 else sent))
  }

  function SentBy(schedule: seq<nat>, sent: nat): (n: nat)
    ensures n >= sent
    decreases |schedule|
  {
    if |schedule| == 0 then sent else SentBy(schedule[1..], if schedule[0] == sent then sent + 1 else sent)
  }

  function Send(p: Phone, instruction: Byte, data: Bytes, schedule: seq<nat>): Phone
    requires 1 <= |data| <= MAX_LOGICAL_BYTES && Known(instruction)
    requires forall i | i in schedule :: i < |Chunks(data)|
    decreases |schedule|
  {
    if |schedule| == 0 then p
    else
      assert schedule[0] in schedule && forall i | i in schedule[1..] :: i in schedule;
      Send(Transceive(p, Frame(instruction, data, schedule[0])).0, instruction, data, schedule[1..])
  }

  lemma {:induction false} Sent(start: Phone, p: Phone, instruction: Byte, data: Bytes, schedule: seq<nat>, k: nat)
    requires 1 <= |data| <= MAX_LOGICAL_BYTES && (instruction == PUT_REQUEST || instruction == PUT_ACK)
    requires forall i | i in schedule :: i < |Chunks(data)|
    requires Sending(start, p, instruction, data, k)
    requires InOrder(schedule, k) && SentBy(schedule, k) < |Chunks(data)|
    ensures Sending(start, Send(p, instruction, data, schedule), instruction, data, SentBy(schedule, k))
    decreases |schedule|
  {
    hide Sending, Frame, Chunks, Transceive;
    if |schedule| > 0 {
      assert schedule[0] in schedule && forall i | i in schedule[1..] :: i in schedule;
      var q := Transceive(p, Frame(instruction, data, schedule[0])).0;
      if schedule[0] == k {
        NextFrame(start, p, instruction, data, k);
        Sent(start, q, instruction, data, schedule[1..], k + 1);
      } else {
        RepeatedFrame(start, p, instruction, data, k, schedule[0]);
        Sent(start, q, instruction, data, schedule[1..], k);
      }
    }
  }

  /** A message of 1 to 4096 bytes reaches the phone whole, whatever frames are repeated on the way, and any
    repetition afterwards gets the first answers and changes nothing. */
  lemma DeliveredWhole(p: Phone, instruction: Byte, data: Bytes, schedule: seq<nat>, again: nat)
    requires 1 <= |data| <= MAX_LOGICAL_BYTES && (instruction == PUT_REQUEST || instruction == PUT_ACK)
    requires Quiet(p, instruction)
    requires (forall i | i in schedule :: i < |Chunks(data)|) && InOrder(schedule, 0)
    requires SentBy(schedule, 0) == |Chunks(data)| - 1 && again < |Chunks(data)|
    ensures
      var (q, answer) := Transceive(Send(p, instruction, data, schedule), Frame(instruction, data, |Chunks(data)| - 1));
      var (m, whole) := AcceptMessage(p, instruction, data);
      && answer == whole && q == m.(fragments := q.fragments, cache := q.cache)
      && (answer.Some? ==>
            Transceive(q, Frame(instruction, data, again)) ==
              (q, if again == |Chunks(data)| - 1 then answer else Some(OK)))
  {
    StartSending(p, instruction, data);
    Sent(p, p, instruction, data, schedule, 0);
    LastFrame(p, Send(p, instruction, data, schedule), instruction, data);
    hide Frame, Chunks, Process, AcceptMessage, Sending, Send;
  }

  // ---------------------------------------------------------------------------------------------
  // The terminal's side

  /** The body of a successful answer. */
  function RequireOk(response: Option<Bytes>): Option<Bytes> {
    if response.None? || |response.value| < 2 || response.value[|response.value| - 2..] != OK then None
    else Some(response.value[..|response.value| - 2])
  }

  /** Put a message fragment by fragment; every answer must be a success. */
  method PutMessage(phone: Simulator, instruction: Byte, data: Bytes) returns (body: Option<Bytes>)
    requires 1 <= |data| <= MAX_LOGICAL_BYTES && (instruction == PUT_REQUEST || instruction == PUT_ACK)
    requires Quiet(phone.State(), instruction)
    modifies phone
    ensures
      var (m, whole) := AcceptMessage(old(phone.State()), instruction, data);
      && body == RequireOk(whole)
      && phone.State() == m.(fragments := phone.fragments, cache := phone.cache)
  {
    hide Frame, Transceive, AcceptMessage, Quiet, Sending;
    ghost var start := phone.State();
    StartSending(start, instruction, data);
    var chunks := Chunks(data);
    for sequence := 0 to |chunks| - 1
      invariant Sending(start, phone.State(), instruction, data, sequence)
    {
      NextFrame(start, phone.State(), instruction, data, sequence);
      var frame := Frame(instruction, data, sequence);
      var response := phone.Exchange(frame);
      body := RequireOk(response);
      if body.None? {
        assert false;
      }
    }
    LastFrame(start, phone.State(), instruction, data);
    var frame := Frame(instruction, data, |chunks| - 1);
    var response := phone.Exchange(frame);
    body := RequireOk(response);
  }

  /** Read one fragment of a message the phone holds. */
  method ReadFragment(phone: Simulator, instruction: Byte, op: Id, sequence: nat, ghost held: Bytes)
    returns (body: Option<Bytes>)
    requires instruction == GET_RECEIPT || instruction == GET_AUTHORIZATION
    requires CodecOk(phone.codec) && op in phone.receipts && sequence < 26
    requires held == phone.codec.encode(if instruction == GET_RECEIPT then phone.receipts[op] else phone.grant)
    requires 1 <= |held| <= MAX_LOGICAL_BYTES && sequence < |Chunks(held)|
    requires AskedBefore(phone.cache, instruction, sequence)
    modifies phone
    ensures phone.State() == old(phone.State()).(cache := phone.cache)
    ensures OnlyAsked(old(phone.cache), phone.cache, instruction)
    ensures AskedBefore(phone.cache, instruction, sequence + 1)
    ensures body == Some([if sequence == |Chunks(held)| - 1 then 1 else 0] + Chunks(held)[sequence])
  {
    hide CodecOk, Chunks, Transceive, FragmentReply, ParseApdu, Ask, AskedBefore, RequireOk;
    NameFits(phone.codec, op);
    var frame := Ask(instruction, sequence, phone.codec.name(op));
    ReadAnswer(phone.State(), instruction, op, sequence, held);
    NotAskedYet(phone.cache, instruction, sequence, frame);
    FreshExchange(phone.State(), frame, FragmentReply(held, sequence));
    AskedNow(phone.cache, instruction, sequence, frame, FragmentReply(held, sequence));
    AnswerBody(held, sequence);
    OneAsked(phone.cache, instruction, frame, FragmentReply(held, sequence));
    var response := phone.Exchange(frame);
    body := RequireOk(response);
  }

  /** Every new answer is to a frame of this instruction. */
  ghost predicate OnlyAsked(before: map<Bytes, Bytes>, after: map<Bytes, Bytes>, instruction: Byte) {
    forall f | f in after && f !in before && ParseApdu(f).Some? :: ParseApdu(f).value.instruction == instruction
  }

  lemma OneAsked(before: map<Bytes, Bytes>, instruction: Byte, frame: Bytes, reply: Bytes)
    requires ParseApdu(frame).Some? && ParseApdu(frame).value.instruction == instruction
    ensures OnlyAsked(before, before[frame := reply], instruction)
  {
    hide ParseApdu;
  }

  /** Read a message the phone holds, fragment by fragment, in at most 26 reads. */
  method ReadMessage(phone: Simulator, instruction: Byte, op: Id) returns (message: Option<Bytes>)
    requires instruction == GET_RECEIPT || instruction == GET_AUTHORIZATION
    requires CodecOk(phone.codec) && Quiet(phone.State(), instruction)
    requires op in phone.receipts && phone.codec.parse(phone.codec.encode(phone.receipts[op])).Some?
    requires phone.codec.parse(phone.codec.encode(phone.grant)).Some?
    modifies phone
    ensures message == Some(phone.codec.encode(if instruction == GET_RECEIPT then old(phone.receipts[op]) else phone.grant))
    ensures phone.State() == old(phone.State()).(cache := phone.cache)
    ensures OnlyAsked(old(phone.cache), phone.cache, instruction)
  {
    ghost var held := phone.codec.encode(if instruction == GET_RECEIPT then phone.receipts[op] else phone.grant);
    HeldFits(phone.codec, if instruction == GET_RECEIPT then phone.receipts[op] else phone.grant);
    NothingAsked(phone.State(), instruction);
    ghost var chunks := Chunks(held);
    assert |chunks| <= 26 && Concat(chunks) == held;
    hide CodecOk, Quiet, Chunks, AskedBefore;
    var collected: Bytes := [];
    assert chunks[..0] == [];
    for sequence := 0 to 26
      invariant phone.State() == old(phone.State()).(cache := phone.cache)
      invariant sequence < |chunks| && collected == Concat(chunks[..sequence])
      invariant AskedBefore(phone.cache, instruction, sequence)
      invariant OnlyAsked(old(phone.cache), phone.cache, instruction)
    {
      var body := ReadFragment(phone, instruction, op, sequence, held);
      if body.None? || |body.value| == 0 || !(body.value[0] == 0 || body.value[0] == 1) {
        return None;
      }
      NextChunk(chunks, sequence);
      collected := collected + body.value[1..];
      if |collected| > 4096 {
        return None;
      }
      if body.value[0] == 1 {
        assert chunks[..sequence + 1] == chunks;
        return Some(collected);
      }
    }
    return None;
  }

  lemma NextChunk(chunks: seq<Bytes>, k: nat)
    requires k < |chunks|
    ensures Concat(chunks[..k + 1]) == Concat(chunks[..k]) + chunks[k]
    ensures |Concat(chunks[..k + 1])| <= |Concat(chunks)|
  {
    assert chunks[..k + 1] == chunks[..k] + [chunks[k]];
    ConcatAppend(chunks[..k], chunks[k]);
    PrefixLength(chunks, k + 1);
  }

  /** A read of one fragment. */
  function Ask(instruction: Byte, sequence: nat, name: Bytes): (f: Bytes)
    requires Known(instruction) && sequence < 26 && |name| <= 255
    ensures ParseApdu(f) == Some(Command(instruction, sequence, true, name))
  {
    var f := BuildApdu(instruction, sequence, true, name).value;
    ParseIffBuilt(f, Command(instruction, sequence, true, name));
    f
  }

  /** Only reads before this one were answered. */
  ghost predicate AskedBefore(cache: map<Bytes, Bytes>, instruction: Byte, sequence: nat) {
    forall f | f in cache && ParseApdu(f).Some? && ParseApdu(f).value.instruction == instruction ::
      ParseApdu(f).value.sequence as int < sequence
  }

  lemma NothingAsked(p: Phone, instruction: Byte)
    requires Quiet(p, instruction)
    ensures AskedBefore(p.cache, instruction, 0)
  {
    hide ParseApdu;
  }

  lemma NotAskedYet(cache: map<Bytes, Bytes>, instruction: Byte, sequence: nat, frame: Bytes)
    requires AskedBefore(cache, instruction, sequence) && ParseApdu(frame).Some?
    requires ParseApdu(frame).value.instruction == instruction && ParseApdu(frame).value.sequence as int == sequence
    ensures frame !in cache
  {
    hide ParseApdu;
  }

  lemma NameFits(codec: Codec, op: Id)
    requires CodecOk(codec)
    ensures |codec.name(op)| <= 255 && Asciis(codec.name(op)) && codec.id(codec.name(op)) == Some(op)
  {
  }

  lemma HeldFits(codec: Codec, e: Envelope)
    requires CodecOk(codec) && codec.parse(codec.encode(e)).Some?
    ensures 1 <= |codec.encode(e)| <= MAX_LOGICAL_BYTES
  {
  }

  lemma ReadAnswer(p: Phone, instruction: Byte, op: Id, sequence: nat, held: Bytes)
    requires instruction == GET_RECEIPT || instruction == GET_AUTHORIZATION
    requires |p.codec.name(op)| <= 255 && Asciis(p.codec.name(op)) && p.codec.id(p.codec.name(op)) == Some(op)
    requires op in p.receipts && held == p.codec.encode(if instruction == GET_RECEIPT then p.receipts[op] else p.grant)
    requires 1 <= |held| <= MAX_LOGICAL_BYTES && sequence < 26
    ensures Process(p, Ask(instruction, sequence, p.codec.name(op))) == (p, Some(FragmentReply(held, sequence)))
  {
    hide FragmentReply, ParseApdu, Ask, Asciis;
  }

  lemma AnswerBody(held: Bytes, sequence: nat)
    requires 1 <= |held| <= MAX_LOGICAL_BYTES && sequence < |Chunks(held)|
    ensures RequireOk(Some(FragmentReply(held, sequence))) ==
            Some([if sequence == |Chunks(held)| - 1 then 1 else 0] + Chunks(held)[sequence])
  {
    var mark := [if sequence == |Chunks(held)| - 1 then 1 else 0];
    var reply := mark + Chunks(held)[sequence] + OK;
    assert FragmentReply(held, sequence) == reply;
    assert reply[|reply| - 2..] == OK && reply[..|reply| - 2] == mark + Chunks(held)[sequence];
  }

  lemma AskedNow(before: map<Bytes, Bytes>, instruction: Byte, sequence: nat, frame: Bytes, reply: Bytes)
    requires AskedBefore(before, instruction, sequence) && ParseApdu(frame).Some?
    requires ParseApdu(frame).value.instruction == instruction && ParseApdu(frame).value.sequence as int == sequence
    ensures AskedBefore(before[frame := reply], instruction, sequence + 1)
  {
    hide ParseApdu;
  }

  lemma FreshExchange(p: Phone, frame: Bytes, reply: Bytes)
    requires frame !in p.cache && Process(p, frame) == (p, Some(reply))
    ensures Transceive(p, frame) == (p.(cache := p.cache[frame := reply]), Some(reply))
  {
    hide Process;
  }
}
