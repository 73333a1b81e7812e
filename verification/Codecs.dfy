/** The encoders and decoders of the six operations, store by store and load by load. */
module Codecs {
  import opened Common
  import opened Bytes
  import opened Params
  import W = Wire

  // ---- encoders ----

  /** The buffer holds the first `i` fields up to the cursor. */
  ghost predicate Filled(bs: seq<byte>, fs: seq<Field>, i: nat, cur: nat) {
    i <= |fs| && cur <= |bs| && bs[..cur] == Written(FieldBytes, fs, i)
  }

  method PutNext(buf: array<byte>, cur: nat, f: Field, ghost fs: seq<Field>, ghost i: nat)
    returns (next: nat)
    requires Filled(buf[..], fs, i, cur) && i < |fs| && f == fs[i]
    requires cur + |FieldBytes(f)| <= buf.Length
    modifies buf
    ensures next == cur + |FieldBytes(f)| && Filled(buf[..], fs, i + 1, next)
  {
    assert buf[..][..cur] == buf[..cur];
    next := PutField(buf, cur, f);
    assert buf[..][..next] == buf[..next];
  }

  lemma Full(bs: seq<byte>, fs: seq<Field>)
    requires Filled(bs, fs, |fs|, |bs|)
    ensures bs == FieldsBytes(fs)
  {
  }

  /** Parent, name and location, which end every creating operation. */
  method PutTail(buf: array<byte>, cur: nat, parentType: int, parentAddr: nat, name: seq<byte>,
                 pack: seq<byte>, ghost fs: seq<Field>, ghost i: nat) returns (next: nat)
    requires Filled(buf[..], fs, i, cur) && |fs| == i + 4
    requires fs[i..] == [IntOf(parentType), LongOf(parentAddr), Blob(name), Blob(pack)]
    requires cur + 28 + |name| + |pack| == buf.Length
    modifies buf
    ensures buf[..] == FieldsBytes(fs)
  {
    assert fs[i] == fs[i..][0] && fs[i + 1] == fs[i..][1];
    assert fs[i + 2] == fs[i..][2] && fs[i + 3] == fs[i..][3];
    next := PutNext(buf, cur, IntOf(parentType), fs, i);
    next := PutNext(buf, next, LongOf(parentAddr), fs, i + 1);
    next := PutNext(buf, next, Blob(name), fs, i + 2);
    next := PutNext(buf, next, Blob(pack), fs, i + 3);
    Full(buf[..], fs);
  }

  /** ds_create_encoder */
  method DsCreateEncoder(p: Operation) returns (buf: array<byte>, size: nat)
    requires p.DsCreate? && LocFits(p.loc)
    ensures fresh(buf) && size == buf.Length && buf[..] == Encode(p)
  {
    var pack, packSize := LocParamsEncoder(p.loc);
    size := |p.typeId| + |p.spaceId| + |p.lcpl| + |p.dcpl| + |p.dapl| + |p.dxpl| + 6 * 8
      + 4 + 8 + packSize + |p.name| + 2 * 8;
    buf := new byte[size](i => 0);
    ghost var fs := FieldsOf(p);
    var cur := PutNext(buf, 0, Blob(p.typeId), fs, 0);
    cur := PutNext(buf, cur, Blob(p.spaceId), fs, 1);
    cur := PutNext(buf, cur, Blob(p.lcpl), fs, 2);
    cur := PutNext(buf, cur, Blob(p.dcpl), fs, 3);
    cur := PutNext(buf, cur, Blob(p.dapl), fs, 4);
    cur := PutNext(buf, cur, Blob(p.dxpl), fs, 5);
    cur := PutTail(buf, cur, p.parentType, p.parentAddr, p.name, pack[..], fs, 6);
  }

  /** group_create_encoder */
  method GroupCreateEncoder(p: Operation) returns (buf: array<byte>, size: nat)
    requires p.GroupCreate? && LocFits(p.loc)
    ensures fresh(buf) && size == buf.Length && buf[..] == Encode(p)
  {
    var pack, packSize := LocParamsEncoder(p.loc);
    size := |p.lcpl| + |p.gcpl| + |p.gapl| + |p.dxpl| + 4 * 8 + 4 + 8 + packSize + |p.name| + 2 * 8;
    buf := new byte[size](i => 0);
    ghost var fs := FieldsOf(p);
    var cur := PutNext(buf, 0, Blob(p.lcpl), fs, 0);
    cur := PutNext(buf, cur, Blob(p.gcpl), fs, 1);
    cur := PutNext(buf, cur, Blob(p.gapl), fs, 2);
    cur := PutNext(buf, cur, Blob(p.dxpl), fs, 3);
    cur := PutTail(buf, cur, p.parentType, p.parentAddr, p.name, pack[..], fs, 4);
  }

  /** attr_create_encoder */
  method AttrCreateEncoder(p: Operation) returns (buf: array<byte>, size: nat)
    requires p.AttrCreate? && LocFits(p.loc)
    ensures fresh(buf) && size == buf.Length && buf[..] == Encode(p)
  {
    var pack, packSize := LocParamsEncoder(p.loc);
    size := |p.typeId| + |p.spaceId| + |p.acpl| + |p.aapl| + |p.dxpl| + 5 * 8
      + 4 + 8 + packSize + |p.name| + 2 * 8;
    buf := new byte[size](i => 0);
    ghost var fs := FieldsOf(p);
    var cur := PutNext(buf, 0, Blob(p.typeId), fs, 0);
    cur := PutNext(buf, cur, Blob(p.spaceId), fs, 1);
    cur := PutNext(buf, cur, Blob(p.acpl), fs, 2);
    cur := PutNext(buf, cur, Blob(p.aapl), fs, 3);
    cur := PutNext(buf, cur, Blob(p.dxpl), fs, 4);
    cur := PutTail(buf, cur, p.parentType, p.parentAddr, p.name, pack[..], fs, 5);
  }

  /** dt_commit_encoder */
  method DtCommitEncoder(p: Operation) returns (buf: array<byte>, size: nat)
    requires p.DtCommit? && LocFits(p.loc)
    ensures fresh(buf) && size == buf.Length && buf[..] == Encode(p)
  {
    var pack, packSize := LocParamsEncoder(p.loc);
    size := 8 + |p.typeId| + 8 + |p.lcpl| + 8 + |p.tcpl| + 8 + |p.tapl| + 8 + |p.dxpl|
      + 4 + 8 + 8 + packSize + 8 + |p.name|;
    buf := new byte[size](i => 0);
    ghost var fs := FieldsOf(p);
    var cur := PutNext(buf, 0, Blob(p.typeId), fs, 0);
    cur := PutNext(buf, cur, Blob(p.lcpl), fs, 1);
    cur := PutNext(buf, cur, Blob(p.tcpl), fs, 2);
    cur := PutNext(buf, cur, Blob(p.tapl), fs, 3);
    cur := PutNext(buf, cur, Blob(p.dxpl), fs, 4);
    cur := PutTail(buf, cur, p.parentType, p.parentAddr, p.name, pack[..], fs, 5);
  }

  /** attr_write_encoder */
  method AttrWriteEncoder(p: Operation) returns (buf: array<byte>, size: nat)
    requires p.AttrWrite?
    ensures fresh(buf) && size == buf.Length && buf[..] == Encode(p)
  {
    size := 8 + |p.memTypeId| + 8 + |p.dxpl| + 4 + 8 + 8 + |p.name| + 8 + |p.data|;
    buf := new byte[size](i => 0);
    ghost var fs := FieldsOf(p);
    var cur := PutNext(buf, 0, Blob(p.memTypeId), fs, 0);
    cur := PutNext(buf, cur, Blob(p.dxpl), fs, 1);
    cur := PutNext(buf, cur, IntOf(p.parentType), fs, 2);
    cur := PutNext(buf, cur, LongOf(p.parentAddr), fs, 3);
    cur := PutNext(buf, cur, Blob(p.name), fs, 4);
    cur := PutNext(buf, cur, Blob(p.data), fs, 5);
    Full(buf[..], fs);
  }

  /** ds_extend_encoder: the address, the rank, and one word per dimension. */
  method DsExtendEncoder(p: Operation) returns (buf: array<byte>, size: nat)
    requires p.DsExtend?
    ensures fresh(buf) && size == buf.Length && buf[..] == Encode(p)
  {
    var rank := |p.dims|;
    size := 8 + 4 + rank * 8;
    buf := new byte[size](i => 0);
    ghost var fs := FieldsOf(p);
    var cur := PutNext(buf, 0, LongOf(p.addr), fs, 0);
    cur := PutNext(buf, cur, IntOf(rank), fs, 1);
    for i := 0 to rank
      invariant cur == 12 + 8 * i && Filled(buf[..], fs, i + 2, cur)
    {
      assert fs[i + 2] == LongOf(p.dims[i]);
      cur := PutNext(buf, cur, LongOf(p.dims[i]), fs, i + 2);
    }
    Full(buf[..], fs);
  }

  // ---- decoders ----

  /** One load at the cursor, of a field the buffer holds. */
  method GetOne(buf: array<byte>, cur: nat, k: Kind) returns (f: Field, next: nat)
    requires ReadOne(k, buf[..], cur).Some?
    ensures ReadOne(k, buf[..], cur) == Some(Cursor(f, next)) && KindOf(f) == k
  {
    match k
    case BLOB =>
      var len, at := W.Get(buf, cur, 8);
      next := at + len;
      f := Blob(buf[..][at..next]);
    case INT =>
      var x;
      x, next := W.Get(buf, cur, 4);
      f := IntOf(Signed(x));
    case LONG =>
      var n;
      n, next := W.Get(buf, cur, 8);
      f := LongOf(n);
  }

  /** Where each load starts and what it yields. */
  ghost predicate LoadAt(bs: seq<byte>, kinds: seq<Kind>, all: seq<Field>, pos: seq<nat>, i: nat)
    requires |pos| == |all| + 1 == |kinds| + 1 && i < |all|
  {
    ReadOne(kinds[i], bs, pos[i]) == Some(Cursor(all[i], pos[i + 1])) && KindOf(all[i]) == kinds[i]
  }

  ghost predicate Plan(bs: seq<byte>, kinds: seq<Kind>, all: seq<Field>, pos: seq<nat>) {
    && |pos| == |all| + 1 == |kinds| + 1 && pos[0] == 0
    && forall i: nat | i < |all| :: LoadAt(bs, kinds, all, pos, i)
  }

  lemma ReadOneKind(k: Kind, bs: seq<byte>, at: nat)
    requires ReadOne(k, bs, at).Some?
    ensures KindOf(ReadOne(k, bs, at).value.field) == k
  {
  }

  lemma {:induction false} PlanUpTo(
      bs: seq<byte>, kinds: seq<Kind>, i: nat)
      returns (all: seq<Field>, pos: seq<nat>)
    requires i <= |kinds| && ReadAll(ReadOne, kinds, bs, 0, i).Some?
    ensures Plan(bs, kinds[..i], all, pos)
    ensures ReadAll(ReadOne, kinds, bs, 0, i) == Some(Fields(all, pos[i]))
  {
    if i == 0 {
      all, pos := [], [0];
    } else {
      var front, start := PlanUpTo(bs, kinds, i - 1);
      var c := ReadOne(kinds[i - 1], bs, start[i - 1]).value;
      ReadOneKind(kinds[i - 1], bs, start[i - 1]);
      all, pos := front + [c.field], start + [c.next];
      forall j: nat | j < i
        ensures LoadAt(bs, kinds[..i], all, pos, j)
      {
        if j < i - 1 {
          assert LoadAt(bs, kinds[..i - 1], front, start, j);
        }
      }
    }
  }

  /** A buffer that holds fields of these kinds can be read load by load. */
  lemma PlanOf(bs: seq<byte>, kinds: seq<Kind>) returns (all: seq<Field>, pos: seq<nat>)
    requires Read(kinds, bs).Some?
    ensures Plan(bs, kinds, all, pos) && Read(kinds, bs).value.list == all
  {
    all, pos := PlanUpTo(bs, kinds, |kinds|);
    assert kinds[..|kinds|] == kinds;
  }

  method GetNext(buf: array<byte>, cur: nat, k: Kind, ghost kinds: seq<Kind>, ghost all: seq<Field>,
                 ghost pos: seq<nat>, ghost i: nat) returns (f: Field, next: nat)
    requires Plan(buf[..], kinds, all, pos) && i < |all| && cur == pos[i] && kinds[i] == k
    ensures f == all[i] && next == pos[i + 1] && KindOf(f) == k
  {
    assert LoadAt(buf[..], kinds, all, pos, i);
    f, next := GetOne(buf, cur, k);
  }

  /** loc_params_decoder, on bytes that hold a location of a supported form. */
  method LocParamsDecoder(pack: seq<byte>) returns (l: LocParams)
    requires LocIn(pack).Some?
    ensures LocIn(pack) == Some(l)
  {
    var buf := new byte[|pack|](i requires 0 <= i < |pack| => pack[i]);
    assert buf[..] == pack;
    var objType, code, cur;
    objType, cur := W.Get(buf, 0, 4);
    code, cur := W.Get(buf, cur, 4);
    if Signed(code) == BY_SELF {
      l := LocParams(Signed(objType), BySelf);
    } else if Signed(code) == BY_TOKEN {
      l := LocParams(Signed(objType), ByToken(buf[..][cur..cur + TOKEN_SIZE]));
    } else {
      var pl, name;
      pl, cur := GetOne(buf, cur, BLOB);
      name, cur := GetOne(buf, cur, BLOB);
      l := LocParams(Signed(objType), ByName(pl.bytes, name.bytes));
    }
  }

  /** Parent, name and location. */
  method GetTail(buf: array<byte>, start: nat, ghost kinds: seq<Kind>, ghost all: seq<Field>,
                 ghost pos: seq<nat>, ghost i: nat)
    returns (pt: int, pa: nat, name: seq<byte>, loc: LocParams)
    requires Plan(buf[..], kinds, all, pos) && |all| == i + 4 && start == pos[i]
    requires kinds[i] == INT && kinds[i + 1] == LONG && kinds[i + 2] == BLOB && kinds[i + 3] == BLOB
    requires all[i + 3].Blob? && LocIn(all[i + 3].bytes).Some?
    ensures all[i] == IntOf(pt) && all[i + 1] == LongOf(pa) && all[i + 2] == Blob(name)
    ensures LocIn(all[i + 3].bytes) == Some(loc)
  {
    var f, g, h, pack, cur;
    f, cur := GetNext(buf, start, INT, kinds, all, pos, i);
    g, cur := GetNext(buf, cur, LONG, kinds, all, pos, i + 1);
    h, cur := GetNext(buf, cur, BLOB, kinds, all, pos, i + 2);
    pack, cur := GetNext(buf, cur, BLOB, kinds, all, pos, i + 3);
    pt, pa, name := f.x, g.n, h.bytes;
    loc := LocParamsDecoder(pack.bytes);
  }

  lemma DecodeIs(t: OpType, bs: seq<byte>, all: seq<Field>)
    requires t != DS_EXTEND && Read(KindsOf(t, 0), bs).Some? && Read(KindsOf(t, 0), bs).value.list == all
    ensures Decode(t, bs) == Assemble(t, all)
  {
  }

  /** The loads a creating operation's decoder can make. */
  lemma PlanOfCreate(t: OpType, bs: seq<byte>) returns (all: seq<Field>, pos: seq<nat>)
    requires t != DS_EXTEND && t != ATTR_WRITE && Decode(t, bs).Some?
    ensures Plan(bs, KindsOf(t, 0), all, pos) && Holds(t, all) && Decode(t, bs) == Assemble(t, all)
  {
    all, pos := PlanOf(bs, KindsOf(t, 0));
    DecodeIs(t, bs, all);
    LocationHeld(t, all);
  }

  /** Fields of a creating operation, with a location in the last one. */
  predicate Holds(t: OpType, all: seq<Field>) {
    && Kinds(all) == KindsOf(t, 0) && all != []
    && all[|all| - 1].Blob? && LocIn(all[|all| - 1].bytes).Some?
  }

  /** What assembles holds a location in its last blob. */
  lemma LocationHeld(t: OpType, all: seq<Field>)
    requires t != DS_EXTEND && t != ATTR_WRITE && Assemble(t, all).Some?
    ensures Kinds(all) == KindsOf(t, 0) && |all| == |KindsOf(t, 0)|
    ensures all[|all| - 1].Blob? && LocIn(all[|all| - 1].bytes).Some?
  {
    assert |all| == |Kinds(all)|;
    assert KindOf(all[|all| - 1]) == KindsOf(t, 0)[|all| - 1] == BLOB;
  }

  /** group_create_decoder */
  method GroupCreateDecoder(buf: array<byte>) returns (p: Operation)
    requires Decode(GROUP_CREATE, buf[..]).Some?
    ensures Decode(GROUP_CREATE, buf[..]) == Some(p)
  {
    ghost var all, pos := PlanOfCreate(GROUP_CREATE, buf[..]);
    p := GroupCreateLoads(buf, all, pos);
  }

  method GroupCreateLoads(buf: array<byte>, ghost all: seq<Field>, ghost pos: seq<nat>) returns (p: Operation)
    requires Plan(buf[..], KindsOf(GROUP_CREATE, 0), all, pos) && Holds(GROUP_CREATE, all)
    ensures Assemble(GROUP_CREATE, all) == Some(p)
  {
    var a, b, c, d, cur;
    a, cur := GetNext(buf, 0, BLOB, KindsOf(GROUP_CREATE, 0), all, pos, 0);
    b, cur := GetNext(buf, cur, BLOB, KindsOf(GROUP_CREATE, 0), all, pos, 1);
    c, cur := GetNext(buf, cur, BLOB, KindsOf(GROUP_CREATE, 0), all, pos, 2);
    d, cur := GetNext(buf, cur, BLOB, KindsOf(GROUP_CREATE, 0), all, pos, 3);
    var pt, pa, name, loc := GetTail(buf, cur, KindsOf(GROUP_CREATE, 0), all, pos, 4);
    p := GroupCreate(a.bytes, b.bytes, c.bytes, d.bytes, pt, pa, name, loc);
    GroupCreateIs(all, p);
  }

  /** ds_create_decoder */
  method DsCreateDecoder(buf: array<byte>) returns (p: Operation)
    requires Decode(DS_CREATE, buf[..]).Some?
    ensures Decode(DS_CREATE, buf[..]) == Some(p)
  {
    ghost var all, pos := PlanOfCreate(DS_CREATE, buf[..]);
    p := DsCreateLoads(buf, all, pos);
  }

  method DsCreateLoads(buf: array<byte>, ghost all: seq<Field>, ghost pos: seq<nat>) returns (p: Operation)
    requires Plan(buf[..], KindsOf(DS_CREATE, 0), all, pos) && Holds(DS_CREATE, all)
    ensures Assemble(DS_CREATE, all) == Some(p)
  {
    var a, b, c, d, e, f, cur;
    a, cur := GetNext(buf, 0, BLOB, KindsOf(DS_CREATE, 0), all, pos, 0);
    b, cur := GetNext(buf, cur, BLOB, KindsOf(DS_CREATE, 0), all, pos, 1);
    c, cur := GetNext(buf, cur, BLOB, KindsOf(DS_CREATE, 0), all, pos, 2);
    d, cur := GetNext(buf, cur, BLOB, KindsOf(DS_CREATE, 0), all, pos, 3);
    e, cur := GetNext(buf, cur, BLOB, KindsOf(DS_CREATE, 0), all, pos, 4);
    f, cur := GetNext(buf, cur, BLOB, KindsOf(DS_CREATE, 0), all, pos, 5);
    var pt, pa, name, loc := GetTail(buf, cur, KindsOf(DS_CREATE, 0), all, pos, 6);
    p := DsCreate(a.bytes, b.bytes, c.bytes, d.bytes, e.bytes, f.bytes, pt, pa, name, loc);
    DsCreateIs(all, p);
  }

  /** attr_create_decoder */
  method AttrCreateDecoder(buf: array<byte>) returns (p: Operation)
    requires Decode(ATTR_CREATE, buf[..]).Some?
    ensures Decode(ATTR_CREATE, buf[..]) == Some(p)
  {
    ghost var all, pos := PlanOfCreate(ATTR_CREATE, buf[..]);
    p := AttrCreateLoads(buf, all, pos);
  }

  method AttrCreateLoads(buf: array<byte>, ghost all: seq<Field>, ghost pos: seq<nat>) returns (p: Operation)
    requires Plan(buf[..], KindsOf(ATTR_CREATE, 0), all, pos) && Holds(ATTR_CREATE, all)
    ensures Assemble(ATTR_CREATE, all) == Some(p)
  {
    var a, b, c, d, e, cur;
    a, cur := GetNext(buf, 0, BLOB, KindsOf(ATTR_CREATE, 0), all, pos, 0);
    b, cur := GetNext(buf, cur, BLOB, KindsOf(ATTR_CREATE, 0), all, pos, 1);
    c, cur := GetNext(buf, cur, BLOB, KindsOf(ATTR_CREATE, 0), all, pos, 2);
    d, cur := GetNext(buf, cur, BLOB, KindsOf(ATTR_CREATE, 0), all, pos, 3);
    e, cur := GetNext(buf, cur, BLOB, KindsOf(ATTR_CREATE, 0), all, pos, 4);
    var pt, pa, name, loc := GetTail(buf, cur, KindsOf(ATTR_CREATE, 0), all, pos, 5);
    p := AttrCreate(a.bytes, b.bytes, c.bytes, d.bytes, e.bytes, pt, pa, name, loc);
    AttrCreateIs(all, p);
  }

  /** dt_commit_decoder */
  method DtCommitDecoder(buf: array<byte>) returns (p: Operation)
    requires Decode(DT_COMMIT, buf[..]).Some?
    ensures Decode(DT_COMMIT, buf[..]) == Some(p)
  {
    ghost var all, pos := PlanOfCreate(DT_COMMIT, buf[..]);
    p := DtCommitLoads(buf, all, pos);
  }

  method DtCommitLoads(buf: array<byte>, ghost all: seq<Field>, ghost pos: seq<nat>) returns (p: Operation)
    requires Plan(buf[..], KindsOf(DT_COMMIT, 0), all, pos) && Holds(DT_COMMIT, all)
    ensures Assemble(DT_COMMIT, all) == Some(p)
  {
    var a, b, c, d, e, cur;
    a, cur := GetNext(buf, 0, BLOB, KindsOf(DT_COMMIT, 0), all, pos, 0);
    b, cur := GetNext(buf, cur, BLOB, KindsOf(DT_COMMIT, 0), all, pos, 1);
    c, cur := GetNext(buf, cur, BLOB, KindsOf(DT_COMMIT, 0), all, pos, 2);
    d, cur := GetNext(buf, cur, BLOB, KindsOf(DT_COMMIT, 0), all, pos, 3);
    e, cur := GetNext(buf, cur, BLOB, KindsOf(DT_COMMIT, 0), all, pos, 4);
    var pt, pa, name, loc := GetTail(buf, cur, KindsOf(DT_COMMIT, 0), all, pos, 5);
    p := DtCommit(a.bytes, b.bytes, c.bytes, d.bytes, e.bytes, pt, pa, name, loc);
    DtCommitIs(all, p);
  }

  /** attr_write_decoder */
  method AttrWriteDecoder(buf: array<byte>) returns (p: Operation)
    requires Decode(ATTR_WRITE, buf[..]).Some?
    ensures Decode(ATTR_WRITE, buf[..]) == Some(p)
  {
    ghost var kinds := KindsOf(ATTR_WRITE, 0);
    ghost var all, pos := PlanOf(buf[..], kinds);
    var a, b, c, d, e, f, cur;
    a, cur := GetNext(buf, 0, BLOB, kinds, all, pos, 0);
    b, cur := GetNext(buf, cur, BLOB, kinds, all, pos, 1);
    c, cur := GetNext(buf, cur, INT, kinds, all, pos, 2);
    d, cur := GetNext(buf, cur, LONG, kinds, all, pos, 3);
    e, cur := GetNext(buf, cur, BLOB, kinds, all, pos, 4);
    f, cur := GetNext(buf, cur, BLOB, kinds, all, pos, 5);
    p := AttrWrite(a.bytes, b.bytes, c.x, d.n, e.bytes, f.bytes);
  }

  /** ds_extend_decoder: the rank just read says how many words follow. */
  method DsExtendDecoder(buf: array<byte>) returns (p: Operation)
    requires Decode(DS_EXTEND, buf[..]).Some? && IntIsRank(buf[..])
    ensures Decode(DS_EXTEND, buf[..]) == Some(p)
  {
    ghost var kinds := KindsOf(DS_EXTEND, RankIn(buf[..]));
    ghost var all, pos := PlanOf(buf[..], kinds);
    assert |kinds| == 2 + RankIn(buf[..]) && kinds[0] == LONG && kinds[1] == INT;
    var addr, rank, cur;
    addr, cur := GetNext(buf, 0, LONG, kinds, all, pos, 0);
    RankWord(buf[..], kinds, all, pos);
    rank, cur := GetNext(buf, cur, INT, kinds, all, pos, 1);
    var dims: seq<nat> := [];
    while |dims| < rank.x
      invariant |dims| <= rank.x && cur == pos[|dims| + 2]
      invariant forall i | 0 <= i < |dims| :: all[i + 2] == LongOf(dims[i])
      decreases rank.x - |dims|
    {
      var d;
      d, cur := GetNext(buf, cur, LONG, kinds, all, pos, |dims| + 2);
      dims := dims + [d.n];
    }
    ExtendIs(all, dims);
    p := DsExtend(addr.n, dims);
  }

  lemma ExtendIs(all: seq<Field>, dims: seq<nat>)
    requires |all| == |dims| + 2 && all[0].LongOf?
    requires forall i | 0 <= i < |dims| :: all[i + 2] == LongOf(dims[i])
    ensures Assemble(DS_EXTEND, all) == Some(DsExtend(all[0].n, dims))
  {
    assert forall i | 2 <= i < |all| :: all[i] == LongOf(dims[i - 2]);
    assert seq(|all| - 2, i requires 0 <= i < |all| - 2 => all[i + 2].n) == dims;
  }

  /** The rank word is not negative. */
  predicate IntIsRank(bs: seq<byte>) {
    |bs| >= 12 && W.IntAt(bs, 8) >= 0
  }

  lemma RankWord(bs: seq<byte>, kinds: seq<Kind>, all: seq<Field>, pos: seq<nat>)
    requires IntIsRank(bs) && Plan(bs, kinds, all, pos)
    requires |kinds| >= 2 && kinds[0] == LONG && kinds[1] == INT
    ensures all[1] == IntOf(RankIn(bs))
  {
    assert LoadAt(bs, kinds, all, pos, 0) && LoadAt(bs, kinds, all, pos, 1);
  }
}
