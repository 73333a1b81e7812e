/** The three nested layouts of a submitted proposal: the proposal record, the engine's pbuf, and
    the broadcast message.  Each hand-written cursor encoder is proved against its byte layout,
    each decoder against the fields it reads. */
module Wire {
  import opened Bytes
  import opened Proposals

  // ---- fields ----

  function Int(x: int): (bs: seq<byte>)
    ensures |bs| == 4
  {
    Word(Unsigned(x), 4)
  }

  function Long(n: nat): (bs: seq<byte>)
    ensures |bs| == 8
  {
    Word(n, 8)
  }

  function IntAt(bs: seq<byte>, at: nat): int
    requires at + 4 <= |bs|
  {
    Signed(Value(bs[at..at + 4]))
  }

  function LongAt(bs: seq<byte>, at: nat): nat
    requires at + 8 <= |bs|
  {
    Value(bs[at..at + 8])
  }

  // ---- the cursor ----

  /** A store of a `k`-byte word at the cursor. */
  method Put(buf: array<byte>, cur: nat, n: nat, k: nat) returns (next: nat)
    requires cur + k <= buf.Length
    modifies buf
    ensures next == cur + k
    ensures buf[..next] == old(buf[..cur]) + Word(n, k)
    ensures buf[next..] == old(buf[next..])
    ensures forall i | next <= i < buf.Length :: buf[i] == old(buf[i])
  {
    var rest, i := n, 0;
    while i < k
      invariant i <= k && buf[..cur] == old(buf[..cur]) && buf[cur + k..] == old(buf[cur + k..])
      invariant buf[cur..cur + i] + Word(rest, k - i) == Word(n, k)
    {
      buf[cur + i] := rest % 256;
      ghost var done, left := buf[cur..cur + i], Word(rest / 256, k - i - 1);
      assert Word(rest, k - i) == [rest % 256] + left;
      assert buf[cur..cur + (i + 1)] == done + [rest % 256];
      rest, i := rest / 256, i + 1;
    }
    next := cur + k;
    assert buf[..next] == buf[..cur] + buf[cur..cur + k];
  }

  /** memcpy of `data` to the cursor. */
  method Copy(buf: array<byte>, cur: nat, data: seq<byte>)
    requires cur + |data| <= buf.Length
    modifies buf
    ensures buf[..cur + |data|] == old(buf[..cur]) + data
    ensures buf[cur + |data|..] == old(buf[cur + |data|..])
  {
    for i := 0 to |data|
      invariant buf[..cur] == old(buf[..cur]) && buf[cur + |data|..] == old(buf[cur + |data|..])
      invariant buf[cur..cur + i] == data[..i]
    {
      buf[cur + i] := data[i];
    }
    assert buf[..cur + |data|] == buf[..cur] + buf[cur..cur + |data|];
  }

  /** A load of the `k`-byte word at the cursor. */
  method Get(buf: array<byte>, cur: nat, k: nat) returns (n: nat, next: nat)
    requires cur + k <= buf.Length
    ensures n == Value(buf[..][cur..cur + k]) && next == cur + k
  {
    n := 0;
    var i: nat := k;
    while i > 0
      invariant 0 <= i <= k && n == Value(buf[cur + i..cur + k])
    {
      i := i - 1;
      assert buf[cur + i..cur + k][1..] == buf[cur + i + 1..cur + k];
      n := buf[cur + i] + 256 * n;
    }
    next := cur + k;
    assert buf[..][cur..cur + k] == buf[cur + i..cur + k];
  }

  // ---- the proposal record ----

  predicate Encodable(p: Proposal) {
    IsInt(p.pid) && IsInt(p.state) && IsLong(p.time) && IsInt(p.isLocal) && IsInt(p.opType)
      && IsLong(|p.data|)
  }

  function ProposalHeader(p: Proposal): (bs: seq<byte>)
    ensures |bs| == 32
  {
    Int(p.pid) + Int(p.state) + Long(p.time) + Int(p.isLocal) + Int(p.opType) + Long(|p.data|)
  }

  function ProposalBytes(p: Proposal): seq<byte> {
    ProposalHeader(p) + p.data
  }

  /** The buffer holds a header and the payload it announces. */
  predicate HasProposal(bs: seq<byte>) {
    32 <= |bs| && 32 + LongAt(bs, 24) <= |bs|
  }

  function ProposalIn(bs: seq<byte>): Proposal
    requires HasProposal(bs)
  {
    Proposal(IntAt(bs, 0), IntAt(bs, 4), LongAt(bs, 8), IntAt(bs, 16), IntAt(bs, 20),
             bs[32..32 + LongAt(bs, 24)])
  }

  method PutProposalFront(buf: array<byte>, p: Proposal) returns (cur: nat)
    requires buf.Length >= 32
    modifies buf
    ensures cur == 16 && buf[..16] == Int(p.pid) + Int(p.state) + Long(p.time)
  {
    cur := Put(buf, 0, Unsigned(p.pid), 4);
    cur := Put(buf, cur, Unsigned(p.state), 4);
    cur := Put(buf, cur, p.time, 8);
  }

  method PutProposalHeader(buf: array<byte>, p: Proposal)
    requires buf.Length == 32 + |p.data|
    modifies buf
    ensures buf[..32] == ProposalHeader(p)
  {
    var cur := PutProposalFront(buf, p);
    cur := Put(buf, cur, Unsigned(p.isLocal), 4);
    cur := Put(buf, cur, Unsigned(p.opType), 4);
    cur := Put(buf, cur, |p.data|, 8);
  }

  /** proposal_encoder */
  method ProposalEncoder(p: Proposal) returns (buf: array<byte>)
    ensures fresh(buf) && buf[..] == ProposalBytes(p)
  {
    buf := new byte[32 + |p.data|](i => 0);
    PutProposalHeader(buf, p);
    if |p.data| > 0 {
      Copy(buf, 32, p.data);
    }
    assert buf[..32 + |p.data|] == buf[..];
  }

  /** proposal_decoder, on a buffer that holds what its length field announces. */
  method ProposalDecoder(buf: array<byte>) returns (p: Proposal)
    requires HasProposal(buf[..])
    ensures p == ProposalIn(buf[..])
  {
    var cur, pid, state, time, isLocal, opType, len;
    pid, cur := Get(buf, 0, 4);
    state, cur := Get(buf, cur, 4);
    time, cur := Get(buf, cur, 8);
    isLocal, cur := Get(buf, cur, 4);
    opType, cur := Get(buf, cur, 4);
    len, cur := Get(buf, cur, 8);
    var data: seq<byte> := [];
    if len > 0 {
      data := buf[cur..cur + len];
    }
    p := Proposal(Signed(pid), Signed(state), time, Signed(isLocal), Signed(opType), data);
    assert buf[..][32..32 + len] == buf[32..32 + len];
  }

  lemma ProposalSlices(
      a: seq<byte>, b: seq<byte>, c: seq<byte>, e: seq<byte>, f: seq<byte>, g: seq<byte>, d: seq<byte>)
    requires |a| == |b| == |e| == |f| == 4 && |c| == |g| == 8
    ensures var bs := a + b + c + e + f + g + d;
      && bs[0..4] == a && bs[4..8] == b && bs[8..16] == c && bs[16..20] == e
      && bs[20..24] == f && bs[24..32] == g && bs[32..32 + |d|] == d
  {
  }

  /** A record's header decides everything but the payload, which is what follows it. */
  lemma ProposalReadBack(p: Proposal, d: seq<byte>)
    requires Encodable(p) && |d| == |p.data|
    ensures HasProposal(ProposalHeader(p) + d)
    ensures ProposalIn(ProposalHeader(p) + d) == p.(data := d)
  {
    ProposalSlices(
      Int(p.pid), Int(p.state), Long(p.time), Int(p.isLocal), Int(p.opType), Long(|p.data|), d);
    IntRoundTrip(p.pid);
    IntRoundTrip(p.state);
    LongRoundTrip(p.time);
    IntRoundTrip(p.isLocal);
    IntRoundTrip(p.opType);
    LongRoundTrip(|p.data|);
  }

  // ---- the pbuf ----

  datatype PBuf = PBuf(pid: int, vote: int, timeStamp: nat, data: seq<byte>)

  predicate EncodablePbuf(b: PBuf) {
    IsInt(b.pid) && IsInt(b.vote) && IsLong(b.timeStamp) && IsLong(|b.data|)
  }

  /** The first word, the size of the whole, is skipped by every reader. */
  function PbufHeader(size: nat, pid: int, vote: int, timeStamp: nat, len: nat): (bs: seq<byte>)
    ensures |bs| == 32
  {
    Long(size) + Int(pid) + Int(vote) + Long(timeStamp) + Long(len)
  }

  function PbufBytes(b: PBuf): (bs: seq<byte>)
    ensures |bs| == 32 + |b.data|
  {
    PbufHeader(32 + |b.data|, b.pid, b.vote, b.timeStamp, |b.data|) + b.data
  }

  predicate HasPbuf(bs: seq<byte>) {
    32 <= |bs| && 32 + LongAt(bs, 24) <= |bs|
  }

  function PbufIn(bs: seq<byte>): PBuf
    requires HasPbuf(bs)
  {
    PBuf(IntAt(bs, 8), IntAt(bs, 12), LongAt(bs, 16), bs[32..32 + LongAt(bs, 24)])
  }

  method PutPbufHeader(buf: array<byte>, size: nat, pid: int, vote: int, timeStamp: nat, len: nat)
    requires buf.Length >= 32
    modifies buf
    ensures buf[..32] == PbufHeader(size, pid, vote, timeStamp, len)
  {
    var cur := Put(buf, 0, size, 8);
    cur := Put(buf, cur, Unsigned(pid), 4);
    cur := Put(buf, cur, Unsigned(vote), 4);
    cur := Put(buf, cur, timeStamp, 8);
    cur := Put(buf, cur, len, 8);
  }

  /** pbuf_serialize.  An empty payload must come as a null pointer; otherwise nothing is written
      and -1 is returned. */
  method PbufSerialize(pid: int, vote: int, timeStamp: nat, len: nat, data: array?<byte>)
    returns (ret: int, buf: array<byte>)
    requires len > 0 ==> data != null && len <= data.Length
    ensures fresh(buf) && buf.Length == 32 + len
    ensures ret == if len == 0 && data != null then -1 else 0
    ensures ret == 0 ==>
      buf[..] == PbufBytes(PBuf(pid, vote, timeStamp, if data == null then [] else data[..len]))
    ensures ret != 0 ==> buf[..] == Zeros(buf.Length)
  {
    var total := 32 + len;
    buf := new byte[total](i => 0);
    if len == 0 {
      if data != null {
        return -1, buf;
      }
    }
    PutPbufHeader(buf, total, pid, vote, timeStamp, len);
    if len > 0 {
      Copy(buf, 32, data[..len]);
    }
    assert buf[..32 + len] == buf[..];
    ret := 0;
  }

  lemma SliceOfTail(s: seq<byte>, start: nat, i: nat, j: nat)
    requires start <= |s| && i <= j <= |s| - start
    ensures s[start..][i..j] == s[start + i..start + j]
  {
  }

  /** The fields read with a cursor that starts at `start`. */
  function PbufAt(s: seq<byte>, start: nat): PBuf
    requires start + 32 <= |s| && start + 32 + LongAt(s, start + 24) <= |s|
  {
    PBuf(IntAt(s, start + 8), IntAt(s, start + 12), LongAt(s, start + 16),
         s[start + 32..start + 32 + LongAt(s, start + 24)])
  }

  lemma PbufAtOffset(s: seq<byte>, start: nat)
    requires start <= |s| && HasPbuf(s[start..])
    ensures start + 32 <= |s| && start + 32 + LongAt(s, start + 24) <= |s|
    ensures PbufAt(s, start) == PbufIn(s[start..])
  {
    SliceOfTail(s, start, 8, 12);
    SliceOfTail(s, start, 12, 16);
    SliceOfTail(s, start, 16, 24);
    SliceOfTail(s, start, 24, 32);
    SliceOfTail(s, start, 32, 32 + LongAt(s, start + 24));
  }

  /** pbuf_deserialize of what starts at offset `start`. */
  method PbufDeserialize(buf: array<byte>, start: nat) returns (b: PBuf)
    requires start <= buf.Length && HasPbuf(buf[..][start..])
    ensures b == PbufIn(buf[..][start..])
  {
    PbufAtOffset(buf[..], start);
    b := ReadPbuf(buf, start);
  }

  method ReadPbuf(buf: array<byte>, start: nat) returns (b: PBuf)
    requires start + 32 <= buf.Length && start + 32 + LongAt(buf[..], start + 24) <= buf.Length
    ensures b == PbufAt(buf[..], start)
  {
    var cur, size, pid, vote, timeStamp, len;
    size, cur := Get(buf, start, 8);
    pid, cur := Get(buf, cur, 4);
    vote, cur := Get(buf, cur, 4);
    timeStamp, cur := Get(buf, cur, 8);
    len, cur := Get(buf, cur, 8);
    var data: seq<byte> := [];
    if len != 0 {
      data := buf[cur..cur + len];
    }
    b := PBuf(Signed(pid), Signed(vote), timeStamp, data);
  }

  lemma PbufSlices(
      a: seq<byte>, b: seq<byte>, c: seq<byte>, e: seq<byte>, f: seq<byte>, d: seq<byte>, rest: seq<byte>)
    requires |b| == |c| == 4 && |a| == |e| == |f| == 8
    ensures var bs := a + b + c + e + f + d + rest;
      && bs[8..12] == b && bs[12..16] == c && bs[16..24] == e && bs[24..32] == f
      && bs[32..32 + |d|] == d
  {
  }

  /** Whatever follows the payload, and whatever the skipped word holds, the reader gets back pid,
      vote, time stamp and payload. */
  lemma PbufReadBack(size: nat, b: PBuf, rest: seq<byte>)
    requires EncodablePbuf(b)
    ensures var bs := PbufHeader(size, b.pid, b.vote, b.timeStamp, |b.data|) + b.data + rest;
      HasPbuf(bs) && PbufIn(bs) == b
  {
    PbufSlices(
      Long(size), Int(b.pid), Int(b.vote), Long(b.timeStamp), Long(|b.data|), b.data, rest);
    IntRoundTrip(b.pid);
    IntRoundTrip(b.vote);
    LongRoundTrip(b.timeStamp);
    LongRoundTrip(|b.data|);
  }

  /** What is serialised is read back, whatever follows it, and begins with its own size. */
  lemma PbufRoundTrip(b: PBuf, rest: seq<byte>)
    requires EncodablePbuf(b) && IsLong(32 + |b.data|)
    ensures HasPbuf(PbufBytes(b) + rest) && PbufIn(PbufBytes(b) + rest) == b
    ensures LongAt(PbufBytes(b) + rest, 0) == 32 + |b.data|
  {
    var size := 32 + |b.data|;
    PbufReadBack(size, b, rest);
    LongRoundTrip(size);
    assert (PbufBytes(b) + rest)[0..8] == Long(size);
  }

  // ---- the vote frame ----

  /** pbuf_vote_serialize: size, rank, pid, vote, time stamp, length, and one spare byte. */
  function VoteFrame(rank: int, pid: int, vote: int): (bs: seq<byte>)
    ensures |bs| == 37
  {
    VoteHeader(rank, pid, vote) + [0]
  }

  function VoteHeader(rank: int, pid: int, vote: int): (bs: seq<byte>)
    ensures |bs| == 36
  {
    Long(36) + Int(rank) + Int(pid) + Int(vote) + Long(0) + Long(0)
  }

  /** Two int stores in a row, the last byte of a vote frame left alone. */
  method PutInts(buf: array<byte>, cur: nat, x: int, y: int) returns (next: nat)
    requires cur + 8 < buf.Length
    modifies buf
    ensures next == cur + 8 && buf[..next] == old(buf[..cur]) + Int(x) + Int(y)
    ensures buf[buf.Length - 1] == old(buf[buf.Length - 1])
  {
    next := Put(buf, cur, Unsigned(x), 4);
    next := Put(buf, next, Unsigned(y), 4);
  }

  method PutVoteFields(buf: array<byte>, total: nat, rank: int, pid: int, vote: int) returns (cur: nat)
    requires buf.Length == 37
    modifies buf
    ensures cur == 20 && buf[..20] == Long(total) + Int(rank) + Int(pid) + Int(vote)
    ensures buf[36] == old(buf[36])
  {
    cur := Put(buf, 0, total, 8);
    cur := Put(buf, cur, Unsigned(rank), 4);
    cur := PutInts(buf, cur, pid, vote);
  }

  method PutVoteHeader(buf: array<byte>, total: nat, rank: int, pid: int, vote: int)
    requires buf.Length == 37 && total == 36
    modifies buf
    ensures buf[..36] == VoteHeader(rank, pid, vote) && buf[36] == old(buf[36])
  {
    var cur := PutVoteFields(buf, total, rank, pid, vote);
    cur := Put(buf, cur, 0, 8);
    cur := Put(buf, cur, 0, 8);
  }

  method PbufVoteSerialize(rank: int, pid: int, vote: int) returns (buf: array<byte>, len: nat)
    ensures fresh(buf) && len == buf.Length && buf[..] == VoteFrame(rank, pid, vote)
  {
    var total := 36;
    buf := new byte[total + 1](i => 0);
    PutVoteHeader(buf, total, rank, pid, vote);
    SpareByte(buf[..], VoteHeader(rank, pid, vote));
    len := total + 1;
  }

  lemma SpareByte(bs: seq<byte>, header: seq<byte>)
    requires |bs| == 37 && |header| == 36 && bs[..36] == header && bs[36] == 0
    ensures bs == header + [0]
  {
  }

  lemma VoteFront(rank: int, pid: int, vote: int)
    ensures LongAt(VoteFrame(rank, pid, vote), 0) == 36
    ensures IsInt(rank) ==> IntAt(VoteFrame(rank, pid, vote), 8) == rank
  {
    var frame := VoteFrame(rank, pid, vote);
    assert frame[0..8] == Long(36) && frame[8..12] == Int(rank);
    LongRoundTrip(36);
    if IsInt(rank) {
      IntRoundTrip(rank);
    }
  }

  /** The frame begins with the size of its fields and the voter's rank.  The vote handler reads it
      four bytes in, where its layout lines up with a pbuf that has an empty payload. */
  lemma VoteReadBack(rank: int, pid: int, vote: int, rest: seq<byte>)
    requires IsInt(pid) && IsInt(vote)
    ensures LongAt(VoteFrame(rank, pid, vote), 0) == 36
    ensures IsInt(rank) ==> IntAt(VoteFrame(rank, pid, vote), 8) == rank
    ensures var bs := (VoteFrame(rank, pid, vote) + rest)[4..];
      HasPbuf(bs) && PbufIn(bs) == PBuf(pid, vote, 0, [])
  {
    VoteFront(rank, pid, vote);
    var skipped := (Long(36) + Int(rank))[4..];
    var bs := (VoteFrame(rank, pid, vote) + rest)[4..];
    ValueRoundTrip(skipped);
    assert skipped == Long(Value(skipped));
    assert bs == PbufHeader(Value(skipped), pid, vote, 0, 0) + [] + ([0] + rest);
    PbufReadBack(Value(skipped), PBuf(pid, vote, 0, []), [0] + rest);
  }

  // ---- the broadcast message ----

  const MSG_SIZE_MAX := 32768
  const BUF_SIZE := 32772
  const BODY_MAX := 32760

  /** RLO_msg_new_bc: origin, size, body, in a zeroed buffer. */
  function MsgBytes(rank: int, body: seq<byte>): (bs: seq<byte>)
    requires |body| <= BODY_MAX
    ensures |bs| == BUF_SIZE
  {
    Int(rank) + Long(|body|) + body + Zeros(BODY_MAX - |body|)
  }

  /** The body must fit the buffer: the copy is not bounded. */
  method MsgNewBc(rank: int, body: array<byte>, size: nat) returns (buf: array<byte>)
    requires size <= body.Length && size <= BODY_MAX
    ensures fresh(buf) && buf[..] == MsgBytes(rank, body[..size])
  {
    buf := new byte[BUF_SIZE](i => 0);
    PutMsgHeader(buf, rank, size);
    assert buf[12..] == Zeros(BODY_MAX);
    Copy(buf, 12, body[..size]);
    MsgAssembled(buf[..], rank, body[..size]);
  }

  method PutMsgHeader(buf: array<byte>, rank: int, size: nat)
    requires buf.Length >= 12
    modifies buf
    ensures buf[..12] == Int(rank) + Long(size) && buf[12..] == old(buf[12..])
  {
    var cur := Put(buf, 0, Unsigned(rank), 4);
    cur := Put(buf, cur, size, 8);
  }

  lemma MsgAssembled(bs: seq<byte>, rank: int, body: seq<byte>)
    requires |bs| == BUF_SIZE && |body| <= BODY_MAX
    requires bs[..12 + |body|] == Int(rank) + Long(|body|) + body
    requires forall i | 12 + |body| <= i < |bs| :: bs[i] == 0
    ensures bs == MsgBytes(rank, body)
  {
    assert bs == bs[..12 + |body|] + bs[12 + |body|..];
    assert bs[12 + |body|..] == Zeros(BODY_MAX - |body|);
  }

  /** One hop: `n` bytes of the sender's buffer arrive in the receiver's zeroed buffer. */
  function Received(buf: seq<byte>, n: nat): (r: seq<byte>)
    requires n <= |buf| == BUF_SIZE
    ensures |r| == BUF_SIZE
  {
    buf[..n] + Zeros(BUF_SIZE - n)
  }

  /** A first hop from the origin, then any forwards: climbing ranks forward the whole buffer,
      descending ranks all but the last four bytes. */
  function Travelled(buf: seq<byte>, whole: seq<bool>): (r: seq<byte>)
    requires |buf| == BUF_SIZE
    ensures |r| == BUF_SIZE
  {
    if whole == [] then Received(buf, MSG_SIZE_MAX)
    else
      var before := Travelled(buf, whole[..|whole| - 1]);
      Received(before, if whole[|whole| - 1] then BUF_SIZE else MSG_SIZE_MAX)
  }

  /** Every rank receives the same buffer, whatever the path: the first hop alone decides. */
  lemma {:induction false} SameAtEveryRank(buf: seq<byte>, whole: seq<bool>)
    requires |buf| == BUF_SIZE
    ensures Travelled(buf, whole) == Received(buf, MSG_SIZE_MAX)
  {
    if whole != [] {
      SameAtEveryRank(buf, whole[..|whole| - 1]);
    }
  }

  // ---- end to end ----

  /** What the submitters put into the message: the record in a pbuf. */
  function BodyBytes(p: Proposal, vote: int, timeStamp: nat): (bs: seq<byte>)
    ensures |bs| == 64 + |p.data|
  {
    PbufBytes(PBuf(p.pid, vote, timeStamp, ProposalBytes(p)))
  }

  /** vp_submit_bcast_RLO and vp_submit_proposal_RLO: three encoders in a row. */
  method SubmitMessage(rank: int, p: Proposal, vote: int, timeStamp: nat) returns (buf: array<byte>)
    requires 64 + |p.data| <= BODY_MAX
    ensures fresh(buf) && buf[..] == MsgBytes(rank, BodyBytes(p, vote, timeStamp))
  {
    var record := ProposalEncoder(p);
    var len := record.Length;
    assert record[..len] == record[..];
    var ret, body := PbufSerialize(p.pid, vote, timeStamp, len, record);
    assert body[..body.Length] == body[..];
    buf := MsgNewBc(rank, body, body.Length);
  }

  /** vp_checkout_proposal_RLO: the reader skips the origin and the size word, copies the pbuf's
      payload, and the managers decode it. */
  method Checkout(buf: array<byte>) returns (p: Proposal)
    requires 12 <= buf.Length && HasPbuf(buf[..][12..]) && HasProposal(PbufIn(buf[..][12..]).data)
    ensures p == CheckedOut(buf[..])
  {
    var b := PbufDeserialize(buf, 12);
    var record := new byte[|b.data|](i requires 0 <= i < |b.data| => b.data[i]);
    assert record[..] == b.data;
    p := ProposalDecoder(record);
  }

  predicate CanCheckOut(bs: seq<byte>) {
    12 <= |bs| && HasPbuf(bs[12..]) && HasProposal(PbufIn(bs[12..]).data)
  }

  function CheckedOut(bs: seq<byte>): Proposal
    requires CanCheckOut(bs)
  {
    ProposalIn(PbufIn(bs[12..]).data)
  }

  /** How much of a pbuf's payload, and of a record's, the first send carries. */
  const DATA_SENT := 32724
  const PAYLOAD_SENT := 32692

  /** What arrives of some bytes of which the first send carries `sent`: the others read as zeros. */
  function ArrivedOf(data: seq<byte>, sent: nat): (d: seq<byte>)
    ensures |d| == |data|
  {
    if |data| <= sent then data else data[..sent] + Zeros(|data| - sent)
  }

  /** The payload of a record as it arrives. */
  function Arrived(data: seq<byte>): (d: seq<byte>)
    ensures |d| == |data|
  {
    ArrivedOf(data, PAYLOAD_SENT)
  }

  lemma ReceivedBuffer(rank: int, head: seq<byte>, data: seq<byte>)
    requires |head| == 32 && 32 + |data| <= BODY_MAX
    ensures var got := Received(MsgBytes(rank, head + data), MSG_SIZE_MAX);
      && got[12..] == head + ArrivedOf(data, DATA_SENT) + Zeros(BODY_MAX - 32 - |data|)
      && got[0..4] == Int(rank) && got[4..12] == Long(32 + |data|)
  {
  }

  /** What the engine of any rank reads from a message: the origin, the size, and the pbuf with the
      payload that arrived. */
  lemma MessageReadsBack(rank: int, b: PBuf, whole: seq<bool>)
    requires EncodablePbuf(b) && 32 + |b.data| <= BODY_MAX
    ensures var got := Travelled(MsgBytes(rank, PbufBytes(b)), whole);
      && (IsInt(rank) ==> IntAt(got, 0) == rank) && LongAt(got, 4) == |PbufBytes(b)|
      && HasPbuf(got[12..]) && PbufIn(got[12..]) == b.(data := ArrivedOf(b.data, DATA_SENT))
  {
    var sent := MsgBytes(rank, PbufBytes(b));
    SameAtEveryRank(sent, whole);
    var head := PbufHeader(32 + |b.data|, b.pid, b.vote, b.timeStamp, |b.data|);
    ReceivedBuffer(rank, head, b.data);
    PbufReadBack(32 + |b.data|, b.(data := ArrivedOf(b.data, DATA_SENT)), Zeros(BODY_MAX - 32 - |b.data|));
    LongRoundTrip(32 + |b.data|);
    if IsInt(rank) {
      IntRoundTrip(rank);
    }
  }

  lemma RecordArrives(p: Proposal)
    ensures ArrivedOf(ProposalBytes(p), DATA_SENT) == ProposalHeader(p) + Arrived(p.data)
  {
  }

  /** What any rank checks out is the submitted proposal with the payload that arrived, and what its
      engine counts votes by is the proposal's own id, next to the vote and time stamp submitted. */
  lemma CheckoutReadsBack(rank: int, p: Proposal, vote: int, timeStamp: nat, whole: seq<bool>)
    requires Encodable(p) && IsInt(vote) && IsLong(timeStamp) && 64 + |p.data| <= BODY_MAX
    ensures var got := Travelled(MsgBytes(rank, BodyBytes(p, vote, timeStamp)), whole);
      && CanCheckOut(got) && CheckedOut(got) == p.(data := Arrived(p.data))
      && (IsInt(rank) ==> IntAt(got, 0) == rank) && LongAt(got, 4) == 64 + |p.data|
      && var b := PbufIn(got[12..]); b.pid == p.pid && b.vote == vote && b.timeStamp == timeStamp
  {
    MessageReadsBack(rank, PBuf(p.pid, vote, timeStamp, ProposalBytes(p)), whole);
    RecordArrives(p);
    ProposalReadBack(p, Arrived(p.data));
  }

  lemma ProposalRoundTrip(p: Proposal)
    requires Encodable(p)
    ensures HasProposal(ProposalBytes(p)) && ProposalIn(ProposalBytes(p)) == p
  {
    ProposalReadBack(p, p.data);
  }

  /** The round trip succeeds exactly when nothing but zeros lies beyond the first send; so it
      always does for a payload of at most 32692 bytes. */
  lemma RoundTripIff(rank: int, p: Proposal, vote: int, timeStamp: nat, whole: seq<bool>)
    requires Encodable(p) && IsInt(vote) && IsLong(timeStamp) && 64 + |p.data| <= BODY_MAX
    ensures var got := Travelled(MsgBytes(rank, BodyBytes(p, vote, timeStamp)), whole);
      CanCheckOut(got)
        && (CheckedOut(got) == p <==> forall i | PAYLOAD_SENT <= i < |p.data| :: p.data[i] == 0)
  {
    CheckoutReadsBack(rank, p, vote, timeStamp, whole);
    var d := Arrived(p.data);
    if forall i | PAYLOAD_SENT <= i < |p.data| :: p.data[i] == 0 {
      assert d == p.data;
    } else {
      var i :| PAYLOAD_SENT <= i < |p.data| && p.data[i] != 0;
      assert d[i] == 0;
    }
  }
}
