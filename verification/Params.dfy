/** The parameters of an HDF5 operation as bytes.  Every encoder is a run over a table of fields:
    blobs behind their size, ints and 64-bit words.  The blobs of datatypes, dataspaces and
    property lists are what HDF5 encodes them to. */
module Params {
  import opened Common
  import opened Bytes
  import W = Wire
  import P = Proposals

  datatype Kind = BLOB | INT | LONG

  datatype Field = Blob(bytes: seq<byte>) | IntOf(x: int) | LongOf(n: nat)

  function KindOf(f: Field): Kind {
    match f
    case Blob(_) => BLOB
    case IntOf(_) => INT
    case LongOf(_) => LONG
  }

  function Kinds(fs: seq<Field>): (k: seq<Kind>)
    ensures |k| == |fs|
  {
    seq(|fs|, i requires 0 <= i < |fs| => KindOf(fs[i]))
  }

  /** The value has the width of its C type. */
  predicate Fits(f: Field) {
    match f
    case Blob(bytes) => IsLong(|bytes|)
    case IntOf(x) => IsInt(x)
    case LongOf(n) => IsLong(n)
  }

  predicate AllFit(fs: seq<Field>) {
    forall i | 0 <= i < |fs| :: Fits(fs[i])
  }

  function FieldBytes(f: Field): seq<byte> {
    match f
    case Blob(bytes) => W.Long(|bytes|) + bytes
    case IntOf(x) => W.Int(x)
    case LongOf(n) => W.Long(n)
  }

  type Writer = Field -> seq<byte>
  type Reader = (Kind, seq<byte>, nat) -> Option<Cursor>

  /** The first `i` fields, one after the other. */
  function Written(write: Writer, fs: seq<Field>, i: nat): seq<byte>
    requires i <= |fs|
  {
    if i == 0 then [] else Written(write, fs, i - 1) + write(fs[i - 1])
  }

  function FieldsBytes(fs: seq<Field>): seq<byte> {
    Written(FieldBytes, fs, |fs|)
  }

  // ---- reading ----

  datatype Cursor = Cursor(field: Field, next: nat)

  /** One field at offset `at`, if the buffer holds it. */
  function ReadOne(k: Kind, bs: seq<byte>, at: nat): Option<Cursor> {
    match k
    case BLOB =>
      if at + 8 > |bs| || at + 8 + W.LongAt(bs, at) > |bs| then None
      else
        var len := W.LongAt(bs, at);
        Some(Cursor(Blob(bs[at + 8..at + 8 + len]), at + 8 + len))
    case INT => if at + 4 > |bs| then None else Some(Cursor(IntOf(W.IntAt(bs, at)), at + 4))
    case LONG => if at + 8 > |bs| then None else Some(Cursor(LongOf(W.LongAt(bs, at)), at + 8))
  }

  datatype Fields = Fields(list: seq<Field>, next: nat)

  /** The fields of the first `i` kinds, from offset `at` on. */
  function ReadAll(read: Reader, kinds: seq<Kind>, bs: seq<byte>, at: nat, i: nat): Option<Fields>
    requires i <= |kinds|
  {
    if i == 0 then Some(Fields([], at))
    else
      match ReadAll(read, kinds, bs, at, i - 1)
      case None => None
      case Some(r) =>
        match read(kinds[i - 1], bs, r.next)
        case None => None
        case Some(c) => Some(Fields(r.list + [c.field], c.next))
  }

  function Read(kinds: seq<Kind>, bs: seq<byte>): Option<Fields> {
    ReadAll(ReadOne, kinds, bs, 0, |kinds|)
  }

  /** The buffer holds `piece` at this offset. */
  predicate At(bs: seq<byte>, at: nat, piece: seq<byte>) {
    at + |piece| <= |bs| && bs[at..at + |piece|] == piece
  }

  lemma AtSplits(bs: seq<byte>, at: nat, x: seq<byte>, y: seq<byte>)
    requires At(bs, at, x + y)
    ensures At(bs, at, x) && At(bs, at + |x|, y)
  {
    var z := bs[at..at + |x + y|];
    assert bs[at..at + |x|] == z[..|x|] && bs[at + |x|..at + |x| + |y|] == z[|x|..];
  }

  lemma ReadOneBack(bs: seq<byte>, at: nat, f: Field)
    requires Fits(f) && At(bs, at, FieldBytes(f))
    ensures ReadOne(KindOf(f), bs, at) == Some(Cursor(f, at + |FieldBytes(f)|))
  {
    match f
    case Blob(bytes) =>
      AtSplits(bs, at, W.Long(|bytes|), bytes);
      LongRoundTrip(|bytes|);
    case IntOf(x) =>
      IntRoundTrip(x);
    case LongOf(n) =>
      LongRoundTrip(n);
  }

  /** Each of the first `n` fields is where its predecessors end. */
  lemma {:induction false} PieceAt(write: Writer, bs: seq<byte>, fs: seq<Field>, n: nat, i: nat)
    requires i < n <= |fs| && At(bs, 0, Written(write, fs, n))
    ensures At(bs, |Written(write, fs, i)|, write(fs[i]))
  {
    AtSplits(bs, 0, Written(write, fs, n - 1), write(fs[n - 1]));
    if i < n - 1 {
      PieceAt(write, bs, fs, n - 1, i);
    }
  }

  /** The reader gets back field `i` where it was written. */
  predicate ReadsAt(read: Reader, write: Writer, bs: seq<byte>, fs: seq<Field>, i: nat)
    requires i < |fs|
  {
    read(KindOf(fs[i]), bs, |Written(write, fs, i)|) ==
      Some(Cursor(fs[i], |Written(write, fs, i)| + |write(fs[i])|))
  }

  lemma {:induction false} ReadBack(read: Reader, write: Writer, bs: seq<byte>, fs: seq<Field>, i: nat)
    requires i <= |fs| && forall j | 0 <= j < i :: ReadsAt(read, write, bs, fs, j)
    ensures ReadAll(read, Kinds(fs), bs, 0, i) == Some(Fields(fs[..i], |Written(write, fs, i)|))
  {
    if i > 0 {
      ReadBack(read, write, bs, fs, i - 1);
      assert ReadsAt(read, write, bs, fs, i - 1);
      assert fs[..i] == fs[..i - 1] + [fs[i - 1]];
    }
  }

  /** Whatever fields were written are read back. */
  lemma FieldsReadBack(fs: seq<Field>)
    requires AllFit(fs)
    ensures Read(Kinds(fs), FieldsBytes(fs)) == Some(Fields(fs, |FieldsBytes(fs)|))
  {
    var bs := FieldsBytes(fs);
    assert bs[0..|bs|] == bs;
    forall i | 0 <= i < |fs|
      ensures ReadsAt(ReadOne, FieldBytes, bs, fs, i)
    {
      PieceAt(FieldBytes, bs, fs, |fs|, i);
      ReadOneBack(bs, |Written(FieldBytes, fs, i)|, fs[i]);
    }
    ReadBack(ReadOne, FieldBytes, bs, fs, |fs|);
    assert fs[..|fs|] == fs;
  }

  // ---- cursor code ----

  /** A size and that many bytes. */
  method PutBlob(buf: array<byte>, cur: nat, data: seq<byte>) returns (next: nat)
    requires cur + 8 + |data| <= buf.Length
    modifies buf
    ensures next == cur + 8 + |data|
    ensures buf[..next] == old(buf[..cur]) + FieldBytes(Blob(data))
  {
    ghost var before := buf[..cur];
    next := W.Put(buf, cur, |data|, 8);
    W.Copy(buf, next, data);
    next := next + |data|;
    Associate(before, W.Long(|data|), data);
  }

  method PutField(buf: array<byte>, cur: nat, f: Field) returns (next: nat)
    requires cur + |FieldBytes(f)| <= buf.Length
    modifies buf
    ensures next == cur + |FieldBytes(f)| && buf[..next] == old(buf[..cur]) + FieldBytes(f)
  {
    match f
    case Blob(bytes) =>
      next := PutBlob(buf, cur, bytes);
    case IntOf(x) =>
      next := W.Put(buf, cur, Unsigned(x), 4);
    case LongOf(n) =>
      next := W.Put(buf, cur, n, 8);
  }

  // ---- object locations ----

  const BY_SELF := 0
  const BY_NAME := 1
  const BY_TOKEN := 3
  const TOKEN_SIZE := 16

  /** The location forms that travel; a name comes with its terminating zero. */
  datatype Location =
    | BySelf
    | ByName(linkAccess: seq<byte>, name: seq<byte>)
    | ByToken(token: seq<byte>)

  datatype LocParams = LocParams(objType: int, loc: Location)

  predicate LocFits(l: LocParams) {
    IsInt(l.objType) &&
    match l.loc
    case BySelf => true
    case ByName(pl, name) => IsLong(|pl|) && IsLong(|name|)
    case ByToken(token) => |token| == TOKEN_SIZE
  }

  function LocCode(loc: Location): int {
    match loc
    case BySelf => BY_SELF
    case ByName(_, _) => BY_NAME
    case ByToken(_) => BY_TOKEN
  }

  function UnionBytes(loc: Location): seq<byte> {
    match loc
    case BySelf => []
    case ByName(pl, name) => FieldBytes(Blob(pl)) + FieldBytes(Blob(name))
    case ByToken(token) => token
  }

  function LocBytes(l: LocParams): seq<byte> {
    W.Int(l.objType) + W.Int(LocCode(l.loc)) + UnionBytes(l.loc)
  }

  /** loc_params_decoder: what the bytes stand for, if they hold a whole location. */
  function LocIn(bs: seq<byte>): Option<LocParams> {
    if |bs| < 8 then None
    else
      var objType, code := W.IntAt(bs, 0), W.IntAt(bs, 4);
      if code == BY_SELF then Some(LocParams(objType, BySelf))
      else if code == BY_TOKEN then
        if |bs| < 8 + TOKEN_SIZE then None
        else Some(LocParams(objType, ByToken(bs[8..8 + TOKEN_SIZE])))
      else if code == BY_NAME then
        match ReadOne(BLOB, bs, 8)
        case None => None
        case Some(pl) =>
          match ReadOne(BLOB, bs, pl.next)
          case None => None
          case Some(name) => Some(LocParams(objType, ByName(pl.field.bytes, name.field.bytes)))
      else None
  }

  /** loc_params_encoder: the union is built on the side, then appended to the two type words. */
  method LocParamsEncoder(l: LocParams) returns (buf: array<byte>, size: nat)
    requires LocFits(l)
    ensures fresh(buf) && size == buf.Length && buf[..] == LocBytes(l)
  {
    var union := UnionEncoder(l.loc);
    size := 8 + union.Length;
    buf := new byte[size](i => 0);
    var cur := W.Put(buf, 0, Unsigned(l.objType), 4);
    cur := W.Put(buf, cur, Unsigned(LocCode(l.loc)), 4);
    W.Copy(buf, cur, union[..]);
    assert buf[..cur + union.Length] == buf[..];
  }

  method UnionEncoder(loc: Location) returns (union: array<byte>)
    ensures fresh(union) && union[..] == UnionBytes(loc)
  {
    match loc
    case BySelf =>
      union := new byte[0];
    case ByToken(token) =>
      union := new byte[|token|](i => 0);
      W.Copy(union, 0, token);
      assert union[..|token|] == union[..];
    case ByName(pl, name) =>
      union := NameEncoder(pl, name);
  }

  method NameEncoder(pl: seq<byte>, name: seq<byte>) returns (union: array<byte>)
    ensures fresh(union) && union[..] == UnionBytes(ByName(pl, name))
  {
    var size := 8 + |pl| + 8 + |name|;
    union := new byte[size](i => 0);
    PutBlobs(union, pl, name);
  }

  method PutBlobs(buf: array<byte>, first: seq<byte>, second: seq<byte>)
    requires buf.Length == 16 + |first| + |second|
    modifies buf
    ensures buf[..] == FieldBytes(Blob(first)) + FieldBytes(Blob(second))
  {
    var cur := PutBlob(buf, 0, first);
    cur := PutBlob(buf, cur, second);
    assert buf[..cur] == buf[..];
  }

  lemma Associate(a: seq<byte>, b: seq<byte>, c: seq<byte>)
    ensures a + b + c == a + (b + c)
  {
  }

  /** Locations by self, name and token survive the trip. */
  lemma LocRoundTrip(l: LocParams, bs: seq<byte>)
    requires LocFits(l) && At(bs, 0, LocBytes(l))
    ensures LocIn(bs) == Some(l)
  {
    var a, b := W.Int(l.objType), W.Int(LocCode(l.loc));
    AtSplits(bs, 0, a + b, UnionBytes(l.loc));
    AtSplits(bs, 0, a, b);
    IntRoundTrip(l.objType);
    IntRoundTrip(LocCode(l.loc));
    if l.loc.ByName? {
      var pl, name := Blob(l.loc.linkAccess), Blob(l.loc.name);
      AtSplits(bs, 8, FieldBytes(pl), FieldBytes(name));
      ReadOneBack(bs, 8, pl);
      ReadOneBack(bs, 8 + |FieldBytes(pl)|, name);
    }
  }

  // ---- operations ----

  /** The hid_t parameters appear as the blobs HDF5 encodes them to. */
  datatype Operation =
    | DsCreate(typeId: seq<byte>, spaceId: seq<byte>, lcpl: seq<byte>, dcpl: seq<byte>, dapl: seq<byte>,
               dxpl: seq<byte>, parentType: int, parentAddr: nat, name: seq<byte>, loc: LocParams)
    | GroupCreate(lcpl: seq<byte>, gcpl: seq<byte>, gapl: seq<byte>, dxpl: seq<byte>,
                  parentType: int, parentAddr: nat, name: seq<byte>, loc: LocParams)
    | AttrCreate(typeId: seq<byte>, spaceId: seq<byte>, acpl: seq<byte>, aapl: seq<byte>, dxpl: seq<byte>,
                 parentType: int, parentAddr: nat, name: seq<byte>, loc: LocParams)
    | DtCommit(typeId: seq<byte>, lcpl: seq<byte>, tcpl: seq<byte>, tapl: seq<byte>, dxpl: seq<byte>,
               parentType: int, parentAddr: nat, name: seq<byte>, loc: LocParams)
    | AttrWrite(memTypeId: seq<byte>, dxpl: seq<byte>, parentType: int, parentAddr: nat,
                name: seq<byte>, data: seq<byte>)
    | DsExtend(addr: nat, dims: seq<nat>)

  datatype OpType = DS_CREATE | GROUP_CREATE | ATTR_CREATE | DT_COMMIT | ATTR_WRITE | DS_EXTEND

  function TypeOf(p: Operation): OpType {
    match p
    case DsCreate(_, _, _, _, _, _, _, _, _, _) => DS_CREATE
    case GroupCreate(_, _, _, _, _, _, _, _) => GROUP_CREATE
    case AttrCreate(_, _, _, _, _, _, _, _, _) => ATTR_CREATE
    case DtCommit(_, _, _, _, _, _, _, _, _) => DT_COMMIT
    case AttrWrite(_, _, _, _, _, _) => ATTR_WRITE
    case DsExtend(_, _) => DS_EXTEND
  }

  /** What follows the blobs in every creating operation. */
  function Tail(parentType: int, parentAddr: nat, name: seq<byte>, loc: LocParams): seq<Field> {
    [IntOf(parentType), LongOf(parentAddr), Blob(name), Blob(LocBytes(loc))]
  }

  function Longs(dims: seq<nat>): seq<Field> {
    seq(|dims|, i requires 0 <= i < |dims| => LongOf(dims[i]))
  }

  /** The fields of an operation in encoding order. */
  function FieldsOf(p: Operation): seq<Field> {
    match p
    case DsCreate(t, s, l, c, a, x, pt, pa, n, loc) =>
      [Blob(t), Blob(s), Blob(l), Blob(c), Blob(a), Blob(x)] + Tail(pt, pa, n, loc)
    case GroupCreate(l, c, a, x, pt, pa, n, loc) =>
      [Blob(l), Blob(c), Blob(a), Blob(x)] + Tail(pt, pa, n, loc)
    case AttrCreate(t, s, c, a, x, pt, pa, n, loc) =>
      [Blob(t), Blob(s), Blob(c), Blob(a), Blob(x)] + Tail(pt, pa, n, loc)
    case DtCommit(t, l, c, a, x, pt, pa, n, loc) =>
      [Blob(t), Blob(l), Blob(c), Blob(a), Blob(x)] + Tail(pt, pa, n, loc)
    case AttrWrite(t, x, pt, pa, n, d) =>
      [Blob(t), Blob(x), IntOf(pt), LongOf(pa), Blob(n), Blob(d)]
    case DsExtend(addr, dims) => [LongOf(addr), IntOf(|dims|)] + Longs(dims)
  }

  const TAIL: seq<Kind> := [INT, LONG, BLOB, BLOB]

  /** The kinds a decoder walks over; ds_extend_decoder learns from the rank how many words follow. */
  function KindsOf(t: OpType, rank: nat): seq<Kind> {
    match t
    case DS_CREATE => [BLOB, BLOB, BLOB, BLOB, BLOB, BLOB] + TAIL
    case GROUP_CREATE => [BLOB, BLOB, BLOB, BLOB] + TAIL
    case ATTR_CREATE => [BLOB, BLOB, BLOB, BLOB, BLOB] + TAIL
    case DT_COMMIT => [BLOB, BLOB, BLOB, BLOB, BLOB] + TAIL
    case ATTR_WRITE => [BLOB, BLOB, INT, LONG, BLOB, BLOB]
    case DS_EXTEND => [LONG, INT] + seq(rank, i => LONG)
  }

  predicate OperationFits(p: Operation) {
    && AllFit(FieldsOf(p))
    && (!p.AttrWrite? && !p.DsExtend? ==> LocFits(p.loc))
  }

  function Encode(p: Operation): seq<byte> {
    FieldsBytes(FieldsOf(p))
  }

  /** The rank word of a ds_extend buffer. */
  function RankIn(bs: seq<byte>): nat {
    if |bs| < 12 || W.IntAt(bs, 8) < 0 then 0 else W.IntAt(bs, 8)
  }

  function Decode(t: OpType, bs: seq<byte>): Option<Operation> {
    match Read(KindsOf(t, if t == DS_EXTEND then RankIn(bs) else 0), bs)
    case None => None
    case Some(r) => Assemble(t, r.list)
  }

  /** The operation whose fields these are. */
  function Assemble(t: OpType, f: seq<Field>): Option<Operation> {
    if t == DS_EXTEND then
      if |f| >= 2 && f[0].LongOf? && (forall i | 2 <= i < |f| :: f[i].LongOf?)
      then Some(DsExtend(f[0].n, seq(|f| - 2, i requires 0 <= i < |f| - 2 => f[i + 2].n)))
      else None
    else if t == ATTR_WRITE then
      if Kinds(f) == KindsOf(ATTR_WRITE, 0)
      then
        assert |f| == 6;
        assert forall i | 0 <= i < 6 :: KindOf(f[i]) == KindsOf(ATTR_WRITE, 0)[i];
        Some(AttrWrite(f[0].bytes, f[1].bytes, f[2].x, f[3].n, f[4].bytes, f[5].bytes))
      else None
    else if Kinds(f) != KindsOf(t, 0) then None
    else WithLocation(t, f)
  }

  function WithLocation(t: OpType, f: seq<Field>): Option<Operation>
    requires t != DS_EXTEND && t != ATTR_WRITE && Kinds(f) == KindsOf(t, 0)
  {
    var k := |f| - 4;
    assert |f| == |KindsOf(t, 0)|;
    assert forall i | 0 <= i < |f| :: KindOf(f[i]) == KindsOf(t, 0)[i];
    match LocIn(f[k + 3].bytes)
    case None => None
    case Some(loc) =>
      var pt, pa, name := f[k].x, f[k + 1].n, f[k + 2].bytes;
      match t
      case DS_CREATE =>
        Some(DsCreate(f[0].bytes, f[1].bytes, f[2].bytes, f[3].bytes, f[4].bytes, f[5].bytes, pt, pa, name, loc))
      case GROUP_CREATE =>
        Some(GroupCreate(f[0].bytes, f[1].bytes, f[2].bytes, f[3].bytes, pt, pa, name, loc))
      case ATTR_CREATE =>
        Some(AttrCreate(f[0].bytes, f[1].bytes, f[2].bytes, f[3].bytes, f[4].bytes, pt, pa, name, loc))
      case DT_COMMIT =>
        Some(DtCommit(f[0].bytes, f[1].bytes, f[2].bytes, f[3].bytes, f[4].bytes, pt, pa, name, loc))
  }

  lemma TailKinds(front: seq<Field>, kinds: seq<Kind>, pt: int, pa: nat, name: seq<byte>, loc: LocParams)
    requires Kinds(front) == kinds
    ensures Kinds(front + Tail(pt, pa, name, loc)) == kinds + TAIL
  {
  }

  lemma ExtendKinds(p: Operation)
    requires p.DsExtend?
    ensures Kinds(FieldsOf(p)) == KindsOf(DS_EXTEND, |p.dims|)
  {
  }

  lemma KindsMatch(p: Operation)
    ensures Kinds(FieldsOf(p)) == KindsOf(TypeOf(p), if p.DsExtend? then |p.dims| else 0)
  {
    match p
    case DsExtend(_, _) => ExtendKinds(p);
    case AttrWrite(_, _, _, _, _, _) =>
    case DsCreate(_, _, _, _, _, _, _, _, _, _) =>
      var front := [Blob(p.typeId), Blob(p.spaceId), Blob(p.lcpl), Blob(p.dcpl), Blob(p.dapl), Blob(p.dxpl)];
      assert Kinds(front) == [BLOB, BLOB, BLOB, BLOB, BLOB, BLOB];
      TailKinds(front, [BLOB, BLOB, BLOB, BLOB, BLOB, BLOB], p.parentType, p.parentAddr, p.name, p.loc);
    case GroupCreate(_, _, _, _, _, _, _, _) =>
      var front := [Blob(p.lcpl), Blob(p.gcpl), Blob(p.gapl), Blob(p.dxpl)];
      assert Kinds(front) == [BLOB, BLOB, BLOB, BLOB];
      TailKinds(front, [BLOB, BLOB, BLOB, BLOB], p.parentType, p.parentAddr, p.name, p.loc);
    case AttrCreate(_, _, _, _, _, _, _, _, _) =>
      var front := [Blob(p.typeId), Blob(p.spaceId), Blob(p.acpl), Blob(p.aapl), Blob(p.dxpl)];
      assert Kinds(front) == [BLOB, BLOB, BLOB, BLOB, BLOB];
      TailKinds(front, [BLOB, BLOB, BLOB, BLOB, BLOB], p.parentType, p.parentAddr, p.name, p.loc);
    case DtCommit(_, _, _, _, _, _, _, _, _) =>
      var front := [Blob(p.typeId), Blob(p.lcpl), Blob(p.tcpl), Blob(p.tapl), Blob(p.dxpl)];
      assert Kinds(front) == [BLOB, BLOB, BLOB, BLOB, BLOB];
      TailKinds(front, [BLOB, BLOB, BLOB, BLOB, BLOB], p.parentType, p.parentAddr, p.name, p.loc);
  }

  lemma RankReadBack(p: Operation)
    requires p.DsExtend? && OperationFits(p)
    ensures RankIn(Encode(p)) == |p.dims|
  {
    var bs, fs := Encode(p), FieldsOf(p);
    assert bs[0..|bs|] == bs;
    assert fs[0] == LongOf(p.addr) && fs[1] == IntOf(|p.dims|);
    assert Fits(fs[1]);
    PieceAt(FieldBytes, bs, fs, |fs|, 1);
    assert |Written(FieldBytes, fs, 1)| == 8;
    IntRoundTrip(|p.dims|);
  }

  lemma AssembleExtend(p: Operation)
    requires p.DsExtend?
    ensures Assemble(DS_EXTEND, FieldsOf(p)) == Some(p)
  {
    var f := FieldsOf(p);
    assert f[0] == LongOf(p.addr) && |f| == 2 + |p.dims|;
    assert forall i | 2 <= i < |f| :: f[i] == LongOf(p.dims[i - 2]);
    assert seq(|f| - 2, i requires 0 <= i < |f| - 2 => f[i + 2].n) == p.dims;
  }

  lemma TailAt(p: Operation)
    requires !p.DsExtend? && !p.AttrWrite?
    ensures var f := FieldsOf(p); var k := |f| - 4;
      && k >= 0 && f[k] == IntOf(p.parentType) && f[k + 1] == LongOf(p.parentAddr)
      && f[k + 2] == Blob(p.name) && f[k + 3] == Blob(LocBytes(p.loc))
  {
  }

  lemma DsCreateBack(p: Operation)
    requires p.DsCreate? && Kinds(FieldsOf(p)) == KindsOf(DS_CREATE, 0) && LocIn(LocBytes(p.loc)) == Some(p.loc)
    ensures Assemble(DS_CREATE, FieldsOf(p)) == Some(p)
  {
    var f := FieldsOf(p);
    TailAt(p);
    assert f[0] == Blob(p.typeId) && f[1] == Blob(p.spaceId) && f[2] == Blob(p.lcpl);
    assert f[3] == Blob(p.dcpl) && f[4] == Blob(p.dapl) && f[5] == Blob(p.dxpl);
    DsCreateIs(f, p);
  }

  lemma GroupCreateBack(p: Operation)
    requires p.GroupCreate? && Kinds(FieldsOf(p)) == KindsOf(GROUP_CREATE, 0) && LocIn(LocBytes(p.loc)) == Some(p.loc)
    ensures Assemble(GROUP_CREATE, FieldsOf(p)) == Some(p)
  {
    var f := FieldsOf(p);
    TailAt(p);
    assert f[0] == Blob(p.lcpl) && f[1] == Blob(p.gcpl) && f[2] == Blob(p.gapl);
    assert f[3] == Blob(p.dxpl);
    GroupCreateIs(f, p);
  }

  lemma AttrCreateBack(p: Operation)
    requires p.AttrCreate? && Kinds(FieldsOf(p)) == KindsOf(ATTR_CREATE, 0) && LocIn(LocBytes(p.loc)) == Some(p.loc)
    ensures Assemble(ATTR_CREATE, FieldsOf(p)) == Some(p)
  {
    var f := FieldsOf(p);
    TailAt(p);
    assert f[0] == Blob(p.typeId) && f[1] == Blob(p.spaceId) && f[2] == Blob(p.acpl);
    assert f[3] == Blob(p.aapl) && f[4] == Blob(p.dxpl);
    AttrCreateIs(f, p);
  }

  lemma DtCommitBack(p: Operation)
    requires p.DtCommit? && Kinds(FieldsOf(p)) == KindsOf(DT_COMMIT, 0) && LocIn(LocBytes(p.loc)) == Some(p.loc)
    ensures Assemble(DT_COMMIT, FieldsOf(p)) == Some(p)
  {
    var f := FieldsOf(p);
    TailAt(p);
    assert f[0] == Blob(p.typeId) && f[1] == Blob(p.lcpl) && f[2] == Blob(p.tcpl);
    assert f[3] == Blob(p.tapl) && f[4] == Blob(p.dxpl);
    DtCommitIs(f, p);
  }

  lemma AssembleCreate(p: Operation)
    requires !p.DsExtend? && !p.AttrWrite? && LocFits(p.loc)
    ensures Assemble(TypeOf(p), FieldsOf(p)) == Some(p)
  {
    KindsMatch(p);
    LocRoundTrip(p.loc, LocBytes(p.loc));
    match p
    case DsCreate(_, _, _, _, _, _, _, _, _, _) => DsCreateBack(p);
    case GroupCreate(_, _, _, _, _, _, _, _) => GroupCreateBack(p);
    case AttrCreate(_, _, _, _, _, _, _, _, _) => AttrCreateBack(p);
    case DtCommit(_, _, _, _, _, _, _, _, _) => DtCommitBack(p);
  }

  /** The fields of such an operation, read back in order, are the operation. */
  lemma DsCreateIs(f: seq<Field>, p: Operation)
    requires p.DsCreate? && |f| == 10 && Kinds(f) == KindsOf(DS_CREATE, 0)
    requires f[0] == Blob(p.typeId) && f[1] == Blob(p.spaceId) && f[2] == Blob(p.lcpl)
    requires f[3] == Blob(p.dcpl) && f[4] == Blob(p.dapl) && f[5] == Blob(p.dxpl)
    requires f[6] == IntOf(p.parentType) && f[7] == LongOf(p.parentAddr) && f[8] == Blob(p.name)
    requires f[9].Blob? && LocIn(f[9].bytes) == Some(p.loc)
    ensures Assemble(DS_CREATE, f) == Some(p)
  {
    assert |KindsOf(DS_CREATE, 0)| == 10;
  }

  /** The fields of such an operation, read back in order, are the operation. */
  lemma GroupCreateIs(f: seq<Field>, p: Operation)
    requires p.GroupCreate? && |f| == 8 && Kinds(f) == KindsOf(GROUP_CREATE, 0)
    requires f[0] == Blob(p.lcpl) && f[1] == Blob(p.gcpl) && f[2] == Blob(p.gapl)
    requires f[3] == Blob(p.dxpl)
    requires f[4] == IntOf(p.parentType) && f[5] == LongOf(p.parentAddr) && f[6] == Blob(p.name)
    requires f[7].Blob? && LocIn(f[7].bytes) == Some(p.loc)
    ensures Assemble(GROUP_CREATE, f) == Some(p)
  {
    assert |KindsOf(GROUP_CREATE, 0)| == 8;
  }

  /** The fields of such an operation, read back in order, are the operation. */
  lemma AttrCreateIs(f: seq<Field>, p: Operation)
    requires p.AttrCreate? && |f| == 9 && Kinds(f) == KindsOf(ATTR_CREATE, 0)
    requires f[0] == Blob(p.typeId) && f[1] == Blob(p.spaceId) && f[2] == Blob(p.acpl)
    requires f[3] == Blob(p.aapl) && f[4] == Blob(p.dxpl)
    requires f[5] == IntOf(p.parentType) && f[6] == LongOf(p.parentAddr) && f[7] == Blob(p.name)
    requires f[8].Blob? && LocIn(f[8].bytes) == Some(p.loc)
    ensures Assemble(ATTR_CREATE, f) == Some(p)
  {
    assert |KindsOf(ATTR_CREATE, 0)| == 9;
  }

  /** The fields of such an operation, read back in order, are the operation. */
  lemma DtCommitIs(f: seq<Field>, p: Operation)
    requires p.DtCommit? && |f| == 9 && Kinds(f) == KindsOf(DT_COMMIT, 0)
    requires f[0] == Blob(p.typeId) && f[1] == Blob(p.lcpl) && f[2] == Blob(p.tcpl)
    requires f[3] == Blob(p.tapl) && f[4] == Blob(p.dxpl)
    requires f[5] == IntOf(p.parentType) && f[6] == LongOf(p.parentAddr) && f[7] == Blob(p.name)
    requires f[8].Blob? && LocIn(f[8].bytes) == Some(p.loc)
    ensures Assemble(DT_COMMIT, f) == Some(p)
  {
    assert |KindsOf(DT_COMMIT, 0)| == 9;
  }

  lemma AssembleBack(p: Operation)
    requires OperationFits(p)
    ensures Assemble(TypeOf(p), FieldsOf(p)) == Some(p)
  {
    KindsMatch(p);
    if p.DsExtend? {
      AssembleExtend(p);
    } else if !p.AttrWrite? {
      AssembleCreate(p);
    }
  }

  /** Every operation's decoder undoes its encoder. */
  lemma OperationRoundTrip(p: Operation)
    requires OperationFits(p)
    ensures Decode(TypeOf(p), Encode(p)) == Some(p)
  {
    var bs := Encode(p);
    KindsMatch(p);
    if p.DsExtend? {
      RankReadBack(p);
    }
    FieldsReadBack(FieldsOf(p));
    AssembleBack(p);
  }

  /** From parameters to parameters, through all four layers: an operation whose encoding fits the
      first send is executed on every rank with the parameters its submitter gave. */
  lemma OperationArrives(
      op: Operation, p: P.Proposal, rank: int, vote: int, timeStamp: nat, whole: seq<bool>)
    requires OperationFits(op) && p.data == Encode(op) && |p.data| <= W.PAYLOAD_SENT
    requires W.Encodable(p) && IsInt(vote) && IsLong(timeStamp)
    ensures var got := W.Travelled(W.MsgBytes(rank, W.BodyBytes(p, vote, timeStamp)), whole);
      W.CanCheckOut(got) && Decode(TypeOf(op), W.CheckedOut(got).data) == Some(op)
  {
    W.RoundTripIff(rank, p, vote, timeStamp, whole);
    OperationRoundTrip(op);
  }
}
