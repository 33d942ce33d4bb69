/** Snapshots and datagram headers on the wire (`net::encodeSnapshot` and company). A
    float is its 32 bits. */
module SnapshotCodec {
  import opened Common
  import opened ByteStream

  const MAX_ENTITIES := 512
  const UDP_MAGIC := 0x554E5431

  type u8 = x: nat | x < 0x100
  type u16 = x: nat | x < 0x1_0000
  type u32 = x: nat | x < 0x1_0000_0000
  type u64 = x: nat | x < 0x1_0000_0000_0000_0000

  datatype Vec3 = Vec3(x: u32, y: u32, z: u32)

  datatype Quat = Quat(x: u32, y: u32, z: u32, w: u32)

  datatype EntityState = EntityState(id: u32, kind: u8, position: Vec3, rotation: Quat, velocity: Vec3,
                                     angularVelocity: Vec3, lastInputSequence: u32)

  datatype Snapshot = Snapshot(tick: u32, serverTimeMs: u64, timeOfDay: u32, entities: seq<EntityState>)

  // ------------------------------------------------------------------ layout

  ghost function F32(v: u32): Field { Word(4, v) }

  ghost function Vec3Fields(v: Vec3): seq<Field> { [F32(v.x), F32(v.y), F32(v.z)] }

  ghost function QuatFields(q: Quat): seq<Field> { [F32(q.x), F32(q.y), F32(q.z), F32(q.w)] }

  ghost function PoseFields(id: u32, kind: u8, position: Vec3, rotation: Quat): seq<Field> {
    [Word(4, id), Word(1, kind)] + Vec3Fields(position) + QuatFields(rotation)
  }

  ghost function MotionFields(velocity: Vec3, angularVelocity: Vec3, last: u32): seq<Field> {
    Vec3Fields(velocity) + Vec3Fields(angularVelocity) + [Word(4, last)]
  }

  ghost function EntityFields(e: EntityState): seq<Field> {
    PoseFields(e.id, e.kind, e.position, e.rotation) + MotionFields(e.velocity, e.angularVelocity, e.lastInputSequence)
  }

  ghost function EntitiesFields(es: seq<EntityState>): seq<Field> {
    if es == [] then [] else EntitiesFields(es[..|es| - 1]) + EntityFields(es[|es| - 1])
  }

  /** The count is cut to 16 bits. */
  ghost function HeaderFields(s: Snapshot): seq<Field> {
    [Word(4, s.tick), Word(8, s.serverTimeMs), F32(s.timeOfDay), Word(2, |s.entities| % 0x1_0000)]
  }

  ghost function SnapshotFields(s: Snapshot): seq<Field> { HeaderFields(s) + EntitiesFields(s.entities) }

  ghost function Encoded(s: Snapshot): seq<byte> { EncodeAll(SnapshotFields(s)) }

  ghost function Words(n: nat): seq<Kind> { seq(n, _ => WordKind(4)) }

  ghost function EntityKinds(): seq<Kind> { ([WordKind(4), WordKind(1)] + Words(7)) + Words(7) }

  lemma Three<T>(a: seq<T>, x: T, y: T, z: T)
    ensures ((a + [x]) + [y]) + [z] == a + [x, y, z] && (a == [] ==> a + [x, y, z] == [x, y, z])
  {
  }

  lemma Four<T>(a: seq<T>, x: T, y: T, z: T, w: T)
    ensures (((a + [x]) + [y]) + [z]) + [w] == a + [x, y, z, w] && (a == [] ==> a + [x, y, z, w] == [x, y, z, w])
  {
  }

  lemma FewWords(f: Kind)
    requires f == WordKind(4)
    ensures Words(3) == [f, f, f] && Words(4) == [f, f, f, f]
  {
  }

  lemma Joined<T>(a: seq<T>, b: seq<T>, c: seq<T>, d: seq<T>)
    ensures ((a + b) + c) + d == a + (b + (c + d)) == a + ((b + c) + d)
  {
  }

  // ------------------------------------------------------------------ writing

  method WriteVec3(writer: ByteWriter, v: Vec3)
    requires writer.Valid()
    modifies writer
    ensures writer.Valid() && writer.before == old(writer.before)
    ensures writer.written == old(writer.written) + Vec3Fields(v)
  {
    Powers();
    writer.Word(4, v.x);
    writer.Word(4, v.y);
    writer.Word(4, v.z);
    Three(old(writer.written), F32(v.x), F32(v.y), F32(v.z));
  }

  method WriteQuat(writer: ByteWriter, q: Quat)
    requires writer.Valid()
    modifies writer
    ensures writer.Valid() && writer.before == old(writer.before)
    ensures writer.written == old(writer.written) + QuatFields(q)
  {
    Powers();
    writer.Word(4, q.x);
    writer.Word(4, q.y);
    writer.Word(4, q.z);
    writer.Word(4, q.w);
    Four(old(writer.written), F32(q.x), F32(q.y), F32(q.z), F32(q.w));
  }

  method WritePose(writer: ByteWriter, id: u32, kind: u8, position: Vec3, rotation: Quat)
    requires writer.Valid()
    modifies writer
    ensures writer.Valid() && writer.before == old(writer.before)
    ensures writer.written == old(writer.written) + PoseFields(id, kind, position, rotation)
  {
    Powers();
    writer.Word(4, id);
    writer.Word(1, kind);
    Associate(old(writer.written), [Word(4, id)], [Word(1, kind)]);
    assert [Word(4, id)] + [Word(1, kind)] == [Word(4, id), Word(1, kind)];
    WriteVec3(writer, position);
    WriteQuat(writer, rotation);
    Joined(old(writer.written), [Word(4, id), Word(1, kind)], Vec3Fields(position), QuatFields(rotation));
  }

  method WriteMotion(writer: ByteWriter, velocity: Vec3, angularVelocity: Vec3, last: u32)
    requires writer.Valid()
    modifies writer
    ensures writer.Valid() && writer.before == old(writer.before)
    ensures writer.written == old(writer.written) + MotionFields(velocity, angularVelocity, last)
  {
    Powers();
    WriteVec3(writer, velocity);
    WriteVec3(writer, angularVelocity);
    writer.Word(4, last);
    Joined(old(writer.written), Vec3Fields(velocity), Vec3Fields(angularVelocity), [Word(4, last)]);
  }

  method WriteEntity(writer: ByteWriter, e: EntityState)
    requires writer.Valid()
    modifies writer
    ensures writer.Valid() && writer.before == old(writer.before)
    ensures writer.written == old(writer.written) + EntityFields(e)
  {
    WritePose(writer, e.id, e.kind, e.position, e.rotation);
    WriteMotion(writer, e.velocity, e.angularVelocity, e.lastInputSequence);
    Associate(old(writer.written), PoseFields(e.id, e.kind, e.position, e.rotation),
              MotionFields(e.velocity, e.angularVelocity, e.lastInputSequence));
  }

  method WriteHeader(writer: ByteWriter, s: Snapshot)
    requires writer.Valid() && writer.written == []
    modifies writer
    ensures writer.Valid() && writer.before == old(writer.before) && writer.written == HeaderFields(s)
  {
    Powers();
    writer.Word(4, s.tick);
    writer.Word(8, s.serverTimeMs);
    writer.Word(4, s.timeOfDay);
    writer.Word(2, |s.entities| % 0x1_0000);
  }

  method EncodeSnapshot(s: Snapshot, out: seq<byte>) returns (r: seq<byte>)
    ensures r == out + Encoded(s)
  {
    var writer := new ByteWriter(out);
    WriteHeader(writer, s);
    for i := 0 to |s.entities|
      invariant writer.Valid() && fresh(writer) && writer.before == out
      invariant writer.written == HeaderFields(s) + EntitiesFields(s.entities[..i])
    {
      WriteEntity(writer, s.entities[i]);
      assert s.entities[..i + 1][..i] == s.entities[..i];
      Associate(HeaderFields(s), EntitiesFields(s.entities[..i]), EntityFields(s.entities[i]));
    }
    assert s.entities[..|s.entities|] == s.entities;
    r := writer.buffer;
  }

  // ------------------------------------------------------------------ reading

  /** The reader has gone on past these fields, if it has not failed. */
  twostate predicate Passed(reader: ByteReader, fs: seq<Field>)
    reads reader
  {
    && (old(reader.failed) ==> reader.failed)
    && (!reader.failed ==> reader.fields == old(reader.fields) + fs)
  }

  method ReadVec3(reader: ByteReader) returns (v: Vec3)
    requires reader.Valid()
    modifies reader
    ensures reader.Valid() && reader.kinds == old(reader.kinds) + Words(3) && Passed(reader, Vec3Fields(v))
  {
    Powers();
    var x := reader.Word(4);
    var y := reader.Word(4);
    var z := reader.Word(4);
    v := Vec3(x, y, z);
    FewWords(WordKind(4));
    Three(old(reader.kinds), WordKind(4), WordKind(4), WordKind(4));
    Three(old(reader.fields), F32(x), F32(y), F32(z));
  }

  method ReadQuat(reader: ByteReader) returns (q: Quat)
    requires reader.Valid()
    modifies reader
    ensures reader.Valid() && reader.kinds == old(reader.kinds) + Words(4) && Passed(reader, QuatFields(q))
  {
    Powers();
    var x := reader.Word(4);
    var y := reader.Word(4);
    var z := reader.Word(4);
    var w := reader.Word(4);
    q := Quat(x, y, z, w);
    FewWords(WordKind(4));
    Four(old(reader.kinds), WordKind(4), WordKind(4), WordKind(4), WordKind(4));
    Four(old(reader.fields), F32(x), F32(y), F32(z), F32(w));
  }

  method ReadTag(reader: ByteReader) returns (id: u32, kind: u8)
    requires reader.Valid()
    modifies reader
    ensures reader.Valid() && reader.kinds == old(reader.kinds) + [WordKind(4), WordKind(1)]
    ensures Passed(reader, [Word(4, id), Word(1, kind)])
  {
    Powers();
    id := reader.Word(4);
    kind := reader.Word(1);
  }

  method ReadPose(reader: ByteReader) returns (id: u32, kind: u8, position: Vec3, rotation: Quat)
    requires reader.Valid()
    modifies reader
    ensures reader.Valid() && reader.kinds == old(reader.kinds) + ([WordKind(4), WordKind(1)] + Words(7))
    ensures Passed(reader, PoseFields(id, kind, position, rotation))
  {
    id, kind := ReadTag(reader);
    position := ReadVec3(reader);
    rotation := ReadQuat(reader);
    Joined(old(reader.kinds), [WordKind(4), WordKind(1)], Words(3), Words(4));
    Joined(old(reader.fields), [Word(4, id), Word(1, kind)], Vec3Fields(position), QuatFields(rotation));
    assert Words(3) + Words(4) == Words(7);
  }

  method ReadMotion(reader: ByteReader) returns (velocity: Vec3, angularVelocity: Vec3, last: u32)
    requires reader.Valid()
    modifies reader
    ensures reader.Valid() && reader.kinds == old(reader.kinds) + Words(7)
    ensures Passed(reader, MotionFields(velocity, angularVelocity, last))
  {
    Powers();
    velocity := ReadVec3(reader);
    angularVelocity := ReadVec3(reader);
    last := reader.Word(4);
    Joined(old(reader.kinds), Words(3), Words(3), [WordKind(4)]);
    Joined(old(reader.fields), Vec3Fields(velocity), Vec3Fields(angularVelocity), [Word(4, last)]);
    assert (Words(3) + Words(3)) + [WordKind(4)] == Words(7);
  }

  method ReadEntity(reader: ByteReader) returns (e: EntityState)
    requires reader.Valid()
    modifies reader
    ensures reader.Valid() && reader.kinds == old(reader.kinds) + EntityKinds()
    ensures Passed(reader, EntityFields(e))
  {
    var id, kind, position, rotation := ReadPose(reader);
    var velocity, angularVelocity, last := ReadMotion(reader);
    Associate(old(reader.fields), PoseFields(id, kind, position, rotation), MotionFields(velocity, angularVelocity, last));
    Associate(old(reader.kinds), [WordKind(4), WordKind(1)] + Words(7), Words(7));
    e := EntityState(id, kind, position, rotation, velocity, angularVelocity, last);
  }

  /** A snapshot of at most MAX_ENTITIES is what the data starts with, or none is. */
  ghost predicate Decodes(data: seq<byte>, r: Option<Snapshot>) {
    match r
    case Some(s) => |s.entities| <= MAX_ENTITIES && Starts(Encoded(s), data)
    case None => forall s: Snapshot :: |s.entities| <= MAX_ENTITIES ==> !Starts(Encoded(s), data)
  }

  method ReadHeaderWords(reader: ByteReader) returns (tick: u32, time: u64, timeOfDay: u32, count: u16)
    requires reader.Valid() && reader.kinds == [] && reader.fields == []
    modifies reader
    ensures reader.Valid() && reader.kinds == HeaderKinds()
    ensures !reader.failed ==> reader.fields == [Word(4, tick), Word(8, time), F32(timeOfDay), Word(2, count)]
  {
    Powers();
    tick := reader.Word(4);
    time := reader.Word(8);
    timeOfDay := reader.Word(4);
    count := reader.Word(2);
    Four([], WordKind(4), WordKind(8), WordKind(4), WordKind(2));
    Four([], Word(4, tick), Word(8, time), F32(timeOfDay), Word(2, count));
  }

  lemma HeaderRead(data: seq<byte>, fields: seq<Field>, offset: nat, count: nat)
    requires Reading(data, HeaderKinds(), fields, offset, false) && |fields| == 4 && fields[3] == Word(2, count)
    ensures IsHeader(fields, count) && Starts(EncodeAll(fields), data)
  {
  }

  method ReadHeader(reader: ByteReader) returns (tick: u32, time: u64, timeOfDay: u32, count: u16)
    requires reader.Valid() && reader.kinds == [] && reader.fields == [] && !reader.failed
    modifies reader
    ensures reader.Valid() && reader.kinds == HeaderKinds()
    ensures if reader.failed then Decodes(reader.data, None)
            else reader.fields == [Word(4, tick), Word(8, time), F32(timeOfDay), Word(2, count)]
                 && IsHeader(reader.fields, count) && Starts(EncodeAll(reader.fields), reader.data)
  {
    tick, time, timeOfDay, count := ReadHeaderWords(reader);
    if reader.failed {
      HeaderMissing(reader.data, reader.fields, reader.offset);
    } else {
      HeaderRead(reader.data, reader.fields, reader.offset, count);
    }
  }

  method DecodeSnapshot(data: seq<byte>) returns (r: Option<Snapshot>)
    ensures Decodes(data, r)
  {
    var reader := new ByteReader(data);
    var tick, time, timeOfDay, count := ReadHeader(reader);
    if reader.failed { return None; }
    if count > MAX_ENTITIES {
      TooMany(data, reader.fields, count);
      return None;
    }
    var entities := ReadEntities(reader, count);
    if entities.None? { return None; }
    r := Some(Snapshot(tick, time, timeOfDay, entities.value));
    Complete(data, reader.kinds, reader.fields, reader.offset, r.value, count);
  }

  method ReadEntities(reader: ByteReader, count: u16) returns (r: Option<seq<EntityState>>)
    requires reader.Valid() && !reader.failed && reader.kinds == HeaderKinds() && IsHeader(reader.fields, count)
    requires Starts(EncodeAll(reader.fields), reader.data)
    modifies reader
    ensures reader.Valid() && reader.failed == r.None?
    ensures r.Some? ==> |r.value| == count && reader.fields == old(reader.fields) + EntitiesFields(r.value)
    ensures r.None? ==> Decodes(reader.data, None)
  {
    var entities: seq<EntityState> := [];
    ghost var header := reader.fields;
    for i := 0 to count
      invariant reader.Valid() && !reader.failed
      invariant |entities| == i && reader.kinds == SnapshotKinds(i)
      invariant reader.fields == header + EntitiesFields(entities)
    {
      var entity := ReadEntity(reader);
      Associate(HeaderKinds(), EntitiesKinds(i), EntityKinds());
      if reader.failed {
        EntityMissing(reader.data, header, count, i, reader.fields, reader.offset);
        return None;
      }
      Associate(header, EntitiesFields(entities), EntityFields(entity));
      assert (entities + [entity])[..i] == entities;
      entities := entities + [entity];
    }
    r := Some(entities);
  }

  // --------------------------------------------------------------- uniqueness

  ghost function HeaderKinds(): seq<Kind> { [WordKind(4), WordKind(8), WordKind(4), WordKind(2)] }

  ghost function EntitiesKinds(n: nat): seq<Kind> { if n == 0 then [] else EntitiesKinds(n - 1) + EntityKinds() }

  ghost function SnapshotKinds(n: nat): seq<Kind> { HeaderKinds() + EntitiesKinds(n) }

  lemma EntityShape(e: EntityState)
    ensures AllProper(EntityFields(e)) && HasKinds(EntityFields(e), EntityKinds())
  {
    Powers();
  }

  lemma {:induction false} EntitiesShape(es: seq<EntityState>)
    ensures AllProper(EntitiesFields(es)) && HasKinds(EntitiesFields(es), EntitiesKinds(|es|))
    decreases |es|
  {
    if es != [] {
      EntitiesShape(es[..|es| - 1]);
      EntityShape(es[|es| - 1]);
    }
  }

  lemma HeaderShape(s: Snapshot)
    ensures AllProper(HeaderFields(s)) && HasKinds(HeaderFields(s), HeaderKinds())
  {
  }

  lemma SnapshotShape(s: Snapshot)
    ensures AllProper(SnapshotFields(s)) && HasKinds(SnapshotFields(s), SnapshotKinds(|s.entities|))
  {
    HeaderShape(s);
    EntitiesShape(s.entities);
  }

  lemma {:induction false} EntitiesSplit(es: seq<EntityState>, n: nat)
    requires n <= |es|
    ensures exists rest :: EntitiesFields(es) == EntitiesFields(es[..n]) + rest
    decreases |es|
  {
    if n == |es| {
      assert es[..n] == es && EntitiesFields(es) == EntitiesFields(es) + [];
    } else {
      var r := es[..|es| - 1];
      EntitiesSplit(r, n);
      assert r[..n] == es[..n];
      var rest :| EntitiesFields(r) == EntitiesFields(r[..n]) + rest;
      Associate(EntitiesFields(es[..n]), rest, EntityFields(es[|es| - 1]));
    }
  }

  /** Data that starts with a snapshot starts with its header ... */
  lemma HeaderStarts(s: Snapshot, data: seq<byte>)
    requires Starts(Encoded(s), data)
    ensures Starts(EncodeAll(HeaderFields(s)), data)
  {
    EncodeAppend(HeaderFields(s), EntitiesFields(s.entities));
    StartsConcat(EncodeAll(HeaderFields(s)), EncodeAll(EntitiesFields(s.entities)), data);
  }

  /** ... and its first entities. */
  lemma PartStarts(s: Snapshot, n: nat, data: seq<byte>)
    requires n <= |s.entities| && Starts(Encoded(s), data)
    ensures Starts(EncodeAll(HeaderFields(s) + EntitiesFields(s.entities[..n])), data)
  {
    EntitiesSplit(s.entities, n);
    var fs := HeaderFields(s) + EntitiesFields(s.entities[..n]);
    var rest :| EntitiesFields(s.entities) == EntitiesFields(s.entities[..n]) + rest;
    Associate(HeaderFields(s), EntitiesFields(s.entities[..n]), rest);
    EncodeAppend(fs, rest);
    StartsConcat(EncodeAll(fs), EncodeAll(rest), data);
  }

  lemma Consumed(data: seq<byte>, kinds: seq<Kind>, fields: seq<Field>, offset: nat)
    requires Reading(data, kinds, fields, offset, false)
    ensures Starts(EncodeAll(fields), data)
  {
  }

  lemma Complete(data: seq<byte>, kinds: seq<Kind>, fields: seq<Field>, offset: nat, s: Snapshot, count: nat)
    requires Reading(data, kinds, fields, offset, false) && |s.entities| == count <= MAX_ENTITIES
    requires fields == [Word(4, s.tick), Word(8, s.serverTimeMs), F32(s.timeOfDay), Word(2, count)] + EntitiesFields(s.entities)
    ensures Decodes(data, Some(s))
  {
    assert HeaderFields(s) == [Word(4, s.tick), Word(8, s.serverTimeMs), F32(s.timeOfDay), Word(2, count)];
  }

  lemma HeaderMissing(data: seq<byte>, fields: seq<Field>, offset: nat)
    requires Reading(data, HeaderKinds(), fields, offset, true)
    ensures Decodes(data, None)
  {
    forall s: Snapshot | |s.entities| <= MAX_ENTITIES ensures !Starts(Encoded(s), data) {
      if Starts(Encoded(s), data) {
        HeaderStarts(s, data);
        HeaderShape(s);
      }
    }
  }

  ghost predicate IsHeader(header: seq<Field>, count: nat) {
    AllProper(header) && HasKinds(header, HeaderKinds()) && header[3] == Word(2, count)
  }

  /** Every snapshot the data starts with has the header that was read. */
  lemma HeaderUnique(s: Snapshot, data: seq<byte>, header: seq<Field>, count: nat)
    requires |s.entities| <= MAX_ENTITIES && Starts(Encoded(s), data)
    requires IsHeader(header, count) && Starts(EncodeAll(header), data)
    ensures HeaderFields(s) == header && |s.entities| == count
  {
    HeaderStarts(s, data);
    HeaderShape(s);
    DecodingUnique(HeaderFields(s), header, HeaderKinds(), data);
    HeaderCount(s, count);
  }

  lemma HeaderCount(s: Snapshot, count: nat)
    requires HeaderFields(s)[3] == Word(2, count) && |s.entities| <= MAX_ENTITIES
    ensures |s.entities| == count
  {
  }

  lemma TooMany(data: seq<byte>, header: seq<Field>, count: nat)
    requires IsHeader(header, count) && Starts(EncodeAll(header), data) && count > MAX_ENTITIES
    ensures Decodes(data, None)
  {
    forall s: Snapshot | |s.entities| <= MAX_ENTITIES ensures !Starts(Encoded(s), data) {
      if Starts(Encoded(s), data) { HeaderUnique(s, data, header, count); }
    }
  }

  lemma EntityMissing(data: seq<byte>, header: seq<Field>, count: nat, n: nat, fields: seq<Field>, offset: nat)
    requires IsHeader(header, count) && Starts(EncodeAll(header), data) && n < count
    requires Reading(data, SnapshotKinds(n + 1), fields, offset, true)
    ensures Decodes(data, None)
  {
    forall s: Snapshot | |s.entities| <= MAX_ENTITIES ensures !Starts(Encoded(s), data) {
      CountedMissing(s, data, header, count, n, fields, offset);
    }
  }

  lemma CountedMissing(s: Snapshot, data: seq<byte>, header: seq<Field>, count: nat, n: nat, fields: seq<Field>, offset: nat)
    requires IsHeader(header, count) && Starts(EncodeAll(header), data) && n < count && |s.entities| <= MAX_ENTITIES
    requires Reading(data, SnapshotKinds(n + 1), fields, offset, true)
    ensures !Starts(Encoded(s), data)
  {
    if Starts(Encoded(s), data) {
      HeaderUnique(s, data, header, count);
      PartMissing(s, n + 1, data, fields, offset);
    }
  }

  lemma PartMissing(s: Snapshot, n: nat, data: seq<byte>, fields: seq<Field>, offset: nat)
    requires n <= |s.entities| && Reading(data, SnapshotKinds(n), fields, offset, true)
    ensures !Starts(Encoded(s), data)
  {
    if Starts(Encoded(s), data) {
      PartStarts(s, n, data);
      PartShape(s, n);
    }
  }

  lemma PartShape(s: Snapshot, n: nat)
    requires n <= |s.entities|
    ensures var fs := HeaderFields(s) + EntitiesFields(s.entities[..n]); AllProper(fs) && HasKinds(fs, SnapshotKinds(n))
  {
    HeaderShape(s);
    EntitiesShape(s.entities[..n]);
  }

  lemma EntityList(e: EntityState)
    ensures var p, q, v, a := e.position, e.rotation, e.velocity, e.angularVelocity;
            EntityFields(e) == [Word(4, e.id), Word(1, e.kind), F32(p.x), F32(p.y), F32(p.z), F32(q.x), F32(q.y), F32(q.z),
                                F32(q.w), F32(v.x), F32(v.y), F32(v.z), F32(a.x), F32(a.y), F32(a.z),
                                Word(4, e.lastInputSequence)]
  {
  }

  lemma EntityInjective(a: EntityState, b: EntityState)
    requires EntityFields(a) == EntityFields(b)
    ensures a == b
  {
    EntityList(a);
    EntityList(b);
    var f, g := EntityFields(a), EntityFields(b);
    assert f[0] == g[0] && f[1] == g[1] && f[2] == g[2] && f[3] == g[3] && f[4] == g[4] && f[5] == g[5];
    assert f[6] == g[6] && f[7] == g[7] && f[8] == g[8] && f[9] == g[9] && f[10] == g[10] && f[11] == g[11];
    assert f[12] == g[12] && f[13] == g[13] && f[14] == g[14] && f[15] == g[15];
  }

  lemma {:induction false} EntitiesInjective(a: seq<EntityState>, b: seq<EntityState>)
    requires |a| == |b| && EntitiesFields(a) == EntitiesFields(b)
    ensures a == b
    decreases |a|
  {
    if a != [] {
      var n := |a| - 1;
      var f, g := EntityFields(a[n]), EntityFields(b[n]);
      var r, q := EntitiesFields(a[..n]), EntitiesFields(b[..n]);
      assert |f| == |g| == 16 && |r| == |q|;
      assert r == (r + f)[..|r|] == (q + g)[..|r|] == q;
      assert f == (r + f)[|r|..] == (q + g)[|r|..] == g;
      EntitiesInjective(a[..n], b[..n]);
      EntityInjective(a[n], b[n]);
      assert a == a[..n] + [a[n]] && b == b[..n] + [b[n]];
    }
  }

  lemma SnapshotInjective(s: Snapshot, t: Snapshot)
    requires |s.entities| == |t.entities| && SnapshotFields(s) == SnapshotFields(t)
    ensures s == t
  {
    var f, g := HeaderFields(s), HeaderFields(t);
    assert f == SnapshotFields(s)[..4] == SnapshotFields(t)[..4] == g;
    assert f[0] == g[0] && f[1] == g[1] && f[2] == g[2];
    assert EntitiesFields(s.entities) == SnapshotFields(s)[4..] == SnapshotFields(t)[4..] == EntitiesFields(t.entities);
    EntitiesInjective(s.entities, t.entities);
  }

  lemma SnapshotUnique(s: Snapshot, t: Snapshot, data: seq<byte>)
    requires |s.entities| <= MAX_ENTITIES && |t.entities| <= MAX_ENTITIES
    requires Starts(Encoded(s), data) && Starts(Encoded(t), data)
    ensures s == t
  {
    HeaderStarts(t, data);
    HeaderShape(t);
    HeaderUnique(s, data, HeaderFields(t), |t.entities|);
    SnapshotShape(s);
    SnapshotShape(t);
    DecodingUnique(SnapshotFields(s), SnapshotFields(t), SnapshotKinds(|s.entities|), data);
    SnapshotInjective(s, t);
  }

  // ------------------------------------------------------------- round trips

  /** Decoding gives back what was encoded just when it was not too much. */
  lemma DecodeInvertsEncode(s: Snapshot, rest: seq<byte>, r: Option<Snapshot>)
    requires Decodes(Encoded(s) + rest, r)
    ensures r == Some(s) <==> |s.entities| <= 512
  {
    var data := Encoded(s) + rest;
    assert data[..|Encoded(s)|] == Encoded(s);
    if |s.entities| <= MAX_ENTITIES && r.Some? { SnapshotUnique(s, r.value, data); }
  }

  /** A datagram cut short anywhere is rejected. */
  lemma TruncationRejected(s: Snapshot, n: nat, r: Option<Snapshot>)
    requires |s.entities| <= MAX_ENTITIES && n < |Encoded(s)| && Decodes(Encoded(s)[..n], r)
    ensures r == None
  {
    var e := Encoded(s);
    if r.Some? {
      assert Starts(Encoded(r.value), e) by { assert e[..n][..|Encoded(r.value)|] == e[..|Encoded(r.value)|]; }
      assert e[..|e|] == e;
      SnapshotUnique(s, r.value, e);
    }
  }

  // -------------------------------------------------------- byte by byte

  /** The field stands at that place. */
  ghost predicate Says(data: seq<byte>, offset: nat, f: Field) {
    offset <= |data| && Starts(Encode(f), data[offset..])
  }

  /** Each field stands behind those before it. */
  lemma FieldSays(fs: seq<Field>, k: nat)
    requires k < |fs|
    ensures Says(EncodeAll(fs), |EncodeAll(fs[..k])|, fs[k])
  {
    var front, rest := fs[..k + 1], fs[k + 1..];
    assert fs == front + rest && front[..k] == fs[..k] && front[k] == fs[k];
    EncodeAppend(front, rest);
    var before := EncodeAll(fs[..k]);
    Associate(before, Encode(fs[k]), EncodeAll(rest));
    assert EncodeAll(fs)[|before|..] == Encode(fs[k]) + EncodeAll(rest);
  }

  lemma PrefixSize(fs: seq<Field>, k: nat)
    requires 0 < k <= |fs| && forall i :: 0 <= i < |fs| ==> fs[i].Word?
    ensures |EncodeAll(fs[..k])| == |EncodeAll(fs[..k - 1])| + fs[k - 1].width
  {
    assert fs[..k][..k - 1] == fs[..k - 1];
  }

  lemma {:induction false} OffsetOf(fs: seq<Field>, k: nat)
    requires 2 <= |fs| && k <= |fs| && forall i :: 0 <= i < |fs| ==> fs[i].Word? && fs[i].width == if i == 1 then 1 else 4
    ensures |EncodeAll(fs[..k])| == if k < 2 then 4 * k else 4 * k - 3
  {
    if k > 0 {
      OffsetOf(fs, k - 1);
      PrefixSize(fs, k);
    }
  }

  lemma EntityOffset(e: EntityState, k: nat)
    requires k <= 16
    ensures |EntityFields(e)| == 16
    ensures |EncodeAll(EntityFields(e)[..k])| == if k < 2 then 4 * k else 4 * k - 3
  {
    EntityList(e);
    OffsetOf(EntityFields(e), k);
  }

  /** An entity takes 61 bytes: id, type, position, rotation, the two velocities and the
      number of the last input applied. */
  lemma EntityBytes(e: EntityState, k: nat)
    requires k < 16
    ensures var b := EncodeAll(EntityFields(e)); var p, q, v, a := e.position, e.rotation, e.velocity, e.angularVelocity;
            && |b| == 61
            && Says(b, if k < 2 then 4 * k else 4 * k - 3,
                    [Word(4, e.id), Word(1, e.kind), Word(4, p.x), Word(4, p.y), Word(4, p.z), Word(4, q.x), Word(4, q.y),
                     Word(4, q.z), Word(4, q.w), Word(4, v.x), Word(4, v.y), Word(4, v.z), Word(4, a.x), Word(4, a.y),
                     Word(4, a.z), Word(4, e.lastInputSequence)][k])
  {
    EntityList(e);
    EntityOffset(e, 16);
    EntityOffset(e, k);
    var fs := EntityFields(e);
    assert fs[..16] == fs;
    FieldSays(fs, k);
  }

  lemma HeaderOffset(s: Snapshot, k: nat)
    requires k <= 4
    ensures |EncodeAll(HeaderFields(s)[..k])| == [0, 4, 12, 16, 18][k]
  {
    if k > 0 {
      HeaderOffset(s, k - 1);
      PrefixSize(HeaderFields(s), k);
    }
  }

  /** The header takes 18: tick, server time, time of day and the count of the entities. */
  lemma HeaderBytes(s: Snapshot, k: nat)
    requires k < 4
    ensures var b := EncodeAll(HeaderFields(s));
            && |b| == 18
            && Says(b, [0, 4, 12, 16][k],
                    [Word(4, s.tick), Word(8, s.serverTimeMs), Word(4, s.timeOfDay), Word(2, |s.entities| % 0x1_0000)][k])
  {
    HeaderOffset(s, 4);
    HeaderOffset(s, k);
    var fs := HeaderFields(s);
    assert fs[..4] == fs;
    FieldSays(fs, k);
  }

  lemma EntitySize(e: EntityState)
    ensures |EncodeAll(EntityFields(e))| == 61
  {
    EntityBytes(e, 0);
  }

  lemma {:induction false} EntitiesSize(es: seq<EntityState>)
    ensures |EncodeAll(EntitiesFields(es))| == 61 * |es|
    decreases |es|
  {
    if es != [] {
      var front, last := EntitiesFields(es[..|es| - 1]), EntityFields(es[|es| - 1]);
      EntitiesSize(es[..|es| - 1]);
      EntitySize(es[|es| - 1]);
      EncodeAppend(front, last);
    }
  }

  lemma StartsBehind(a: seq<byte>, b: seq<byte>)
    ensures Starts(b, (a + b)[|a|..])
  {
  }

  lemma StartsFront(a: seq<byte>, offset: nat, b: seq<byte>, part: seq<byte>)
    requires offset <= |a| && Starts(part, a[offset..])
    ensures Starts(part, (a + b)[offset..])
  {
    assert (a + b)[offset..] == a[offset..] + b;
  }

  lemma {:induction false} EntitiesBytes(es: seq<EntityState>, k: nat)
    requires k < |es|
    ensures var b := EncodeAll(EntitiesFields(es)); 61 * k <= |b| && Starts(EncodeAll(EntityFields(es[k])), b[61 * k..])
    decreases |es|
  {
    var front, last := es[..|es| - 1], EntityFields(es[|es| - 1]);
    EncodeAppend(EntitiesFields(front), last);
    EntitiesSize(front);
    if k < |front| {
      EntitiesBytes(front, k);
      StartsFront(EncodeAll(EntitiesFields(front)), 61 * k, EncodeAll(last), EncodeAll(EntityFields(es[k])));
    } else {
      StartsBehind(EncodeAll(EntitiesFields(front)), EncodeAll(last));
    }
  }

  /** Where everything stands in a snapshot on the wire: the header, and then 61 bytes for
      every entity, in order. */
  lemma SnapshotBytes(s: Snapshot)
    ensures var b := Encoded(s);
            && |b| == 18 + 61 * |s.entities|
            && Starts(EncodeAll(HeaderFields(s)), b)
            && forall k :: 0 <= k < |s.entities| ==> Starts(EncodeAll(EntityFields(s.entities[k])), b[18 + 61 * k..])
  {
    var h, es := EncodeAll(HeaderFields(s)), EncodeAll(EntitiesFields(s.entities));
    EncodeAppend(HeaderFields(s), EntitiesFields(s.entities));
    HeaderBytes(s, 0);
    EntitiesSize(s.entities);
    assert (h + es)[..18] == h;
    forall k | 0 <= k < |s.entities| ensures Starts(EncodeAll(EntityFields(s.entities[k])), Encoded(s)[18 + 61 * k..]) {
      EntitiesBytes(s.entities, k);
      assert (h + es)[18 + 61 * k..] == es[61 * k..];
    }
  }

  // -------------------------------------------------------- datagram headers

  ghost function UdpHeader(kind: u16, sequence: u32): seq<byte> {
    EncodeAll([Word(4, UDP_MAGIC), Word(2, kind), Word(4, sequence)])
  }

  method WriteUdpHeader(out: seq<byte>, kind: u16, sequence: u32) returns (r: seq<byte>)
    ensures r == out + UdpHeader(kind, sequence)
  {
    var writer := new ByteWriter(out);
    Powers();
    writer.Word(4, UDP_MAGIC);
    writer.Word(2, kind);
    writer.Word(4, sequence);
    Three([], Word(4, UDP_MAGIC), Word(2, kind), Word(4, sequence));
    r := writer.buffer;
  }

  /** The type and sequence of the header the datagram starts with, if it does. */
  method ReadUdpHeader(data: seq<byte>) returns (r: Option<(u16, u32)>, bodyOffset: nat)
    ensures r.Some? ==> Starts(UdpHeader(r.value.0, r.value.1), data) && bodyOffset == |UdpHeader(r.value.0, r.value.1)|
    ensures r.None? ==> forall kind: u16, sequence: u32 :: !Starts(UdpHeader(kind, sequence), data)
  {
    r, bodyOffset := None, 0;
    Powers();
    var reader := new ByteReader(data);
    var magic := reader.Word(4);
    if magic != UDP_MAGIC {
      NotOurs(data, reader.fields, reader.offset, reader.failed, magic);
      return;
    }
    var kind := reader.Word(2);
    var sequence := reader.Word(4);
    Three([], WordKind(4), WordKind(2), WordKind(4));
    Three([], Word(4, UDP_MAGIC), Word(2, kind), Word(4, sequence));
    if reader.failed {
      HeaderCut(data, reader.fields, reader.offset);
      return;
    }
    Consumed(data, reader.kinds, reader.fields, reader.offset);
    HeaderSize(kind, sequence);
    r, bodyOffset := Some((kind, sequence)), 10;
  }

  lemma UdpOffset(kind: u16, sequence: u32, k: nat)
    requires k <= 3
    ensures |EncodeAll([Word(4, UDP_MAGIC), Word(2, kind), Word(4, sequence)][..k])| == [0, 4, 6, 10][k]
  {
    if k > 0 {
      UdpOffset(kind, sequence, k - 1);
      PrefixSize([Word(4, UDP_MAGIC), Word(2, kind), Word(4, sequence)], k);
    }
  }

  /** Ten bytes in front of every datagram: the magic number, the type and the sequence. */
  lemma UdpHeaderBytes(kind: u16, sequence: u32, k: nat)
    requires k < 3
    ensures |UdpHeader(kind, sequence)| == 10
    ensures Says(UdpHeader(kind, sequence), [0, 4, 6][k], [Word(4, 0x554E5431), Word(2, kind), Word(4, sequence)][k])
  {
    var fs := [Word(4, UDP_MAGIC), Word(2, kind), Word(4, sequence)];
    UdpOffset(kind, sequence, 3);
    UdpOffset(kind, sequence, k);
    assert fs[..3] == fs;
    FieldSays(fs, k);
  }

  lemma HeaderSize(kind: u16, sequence: u32)
    ensures |UdpHeader(kind, sequence)| == 10
  {
    UdpHeaderBytes(kind, sequence, 0);
  }

  lemma HeaderFieldsProper(kind: u16, sequence: u32)
    ensures var fs := [Word(4, UDP_MAGIC), Word(2, kind), Word(4, sequence)];
            AllProper(fs) && HasKinds(fs, [WordKind(4), WordKind(2), WordKind(4)])
  {
  }

  lemma NotOurs(data: seq<byte>, fields: seq<Field>, offset: nat, failed: bool, magic: nat)
    requires Reading(data, [WordKind(4)], fields, offset, failed) && magic != UDP_MAGIC
    requires !failed ==> fields == [Word(4, magic)]
    ensures forall kind: u16, sequence: u32 :: !Starts(UdpHeader(kind, sequence), data)
  {
    forall kind: u16, sequence: u32 ensures !Starts(UdpHeader(kind, sequence), data) {
      var m, fs := [Word(4, UDP_MAGIC)], [Word(2, kind), Word(4, sequence)];
      assert m + fs == [Word(4, UDP_MAGIC), Word(2, kind), Word(4, sequence)];
      EncodeAppend(m, fs);
      StartsConcat(EncodeAll(m), EncodeAll(fs), data);
      HeaderFieldsProper(kind, sequence);
      if Starts(EncodeAll(m), data) && !failed { DecodingUnique(m, fields, [WordKind(4)], data); }
    }
  }

  lemma HeaderCut(data: seq<byte>, fields: seq<Field>, offset: nat)
    requires Reading(data, [WordKind(4), WordKind(2), WordKind(4)], fields, offset, true)
    ensures forall kind: u16, sequence: u32 :: !Starts(UdpHeader(kind, sequence), data)
  {
  }
}
