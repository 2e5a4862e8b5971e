/**
  What the GL driver does with the calls the cache makes. Every live buffer
  name owns a data store of bytes; `glBufferData` and `glBufferSubData` read
  their size argument as a number of BYTES, and `glBindBuffer` selects the
  buffer the next data call on a target goes to. Each element of a payload
  takes four bytes (`sizeof(int) == sizeof(float) == 4`); a byte is
  represented by the element it belongs to and its position inside it.
 */
module GLDriver {
  import opened Wrappers
  import opened Layout
  import opened Attributes
  import opened GL

  /** Byte `part` (0 to 3) of the element `of`. */
  datatype GLByte = GLByte(of: Scalar, part: nat)

  /** The four bytes of each element, one row per element. */
  function ByteRows(values: seq<Scalar>): (rows: seq<seq<GLByte>>)
    ensures |rows| == |values| && Uniform(rows, 4)
  {
    seq(|values|, i requires 0 <= i < |values| =>
      [GLByte(values[i], 0), GLByte(values[i], 1), GLByte(values[i], 2), GLByte(values[i], 3)])
  }

  /** The bytes of an array of elements, four per element, in order. */
  function Bytes(values: seq<Scalar>): (r: seq<GLByte>)
    ensures |r| == 4 * |values|
  {
    FlattenLength(ByteRows(values), 4);
    Flatten(ByteRows(values))
  }

  /** Byte `k` of element `i` sits at byte `4i + k`. */
  lemma ByteOf(values: seq<Scalar>, i: int, k: int)
    requires 0 <= i < |values| && 0 <= k < 4
    ensures 4 * i + k < |Bytes(values)|
    ensures Bytes(values)[4 * i + k] == GLByte(values[i], k)
  {
    FlattenAt(ByteRows(values), 4, i, k);
  }

  /** The bytes of two arrays one after the other are the bytes of their concatenation. */
  lemma BytesAppend(values: seq<Scalar>, more: seq<Scalar>)
    ensures Bytes(values + more) == Bytes(values) + Bytes(more)
  {
    assert ByteRows(values + more) == ByteRows(values) + ByteRows(more);
    FlattenAppend(ByteRows(values), ByteRows(more));
  }

  /** The first `4k` bytes of an array are the bytes of its first `k` elements. */
  lemma BytesPrefix(values: seq<Scalar>, k: nat)
    requires k <= |values|
    ensures Bytes(values)[..4 * k] == Bytes(values[..k])
  {
    assert values == values[..k] + values[k..];
    BytesAppend(values[..k], values[k..]);
  }

  /**
    The bytes of an array cut into three parts: those of the elements before
    `start`, those of the next `count` elements, and those of the rest.
   */
  lemma BytesThirds(values: seq<Scalar>, start: nat, count: nat)
    requires start + count <= |values|
    ensures Bytes(values) == Bytes(values[..start]) + Bytes(values[start .. start + count]) + Bytes(values[start + count..])
  {
    assert values == values[..start] + values[start .. start + count] + values[start + count..];
    BytesAppend(values[..start], values[start .. start + count]);
    BytesAppend(values[..start] + values[start .. start + count], values[start + count..]);
  }

  /** Byte `t` of a run of elements starting at element `start` is byte `4 start + t` of the whole array. */
  lemma BytesAt(values: seq<Scalar>, start: nat, piece: seq<Scalar>, t: nat)
    requires start + |piece| <= |values| && piece == values[start .. start + |piece|]
    requires t < 4 * |piece|
    ensures 4 * start + t < |Bytes(values)|
    ensures Bytes(values)[4 * start + t] == Bytes(piece)[t]
  {
    BytesThirds(values, start, |piece|);
  }

  /** Writing the bytes of some elements over an array's bytes is writing the elements themselves. */
  lemma BytesSplice(before: seq<Scalar>, start: nat, piece: seq<Scalar>)
    requires start + |piece| <= |before|
    ensures Splice(Bytes(before), 4 * start, Bytes(piece)) == Bytes(Splice(before, start, piece))
  {
    var after := Splice(before, start, piece);
    var head, tail := before[..start], before[start + |piece|..];
    assert after == head + piece + tail;
    BytesThirds(before, start, |piece|);
    BytesThirds(after, start, |piece|);
    assert after[..start] == head && after[start .. start + |piece|] == piece && after[start + |piece|..] == tail;
    var bytes := Bytes(before);
    assert bytes[..4 * start] == Bytes(head);
    assert bytes[4 * start + |Bytes(piece)|..] == Bytes(tail);
  }

  /**
    Writing only the first `|piece|` bytes of `piece`'s bytes at element
    `start` of a store of `|elements|` elements: those bytes are right, the
    remaining three quarters of the range keep their old contents.
   */
  lemma BytesSpliceShort(bytes: seq<GLByte>, elements: seq<Scalar>, start: nat, piece: seq<Scalar>)
    requires |bytes| == 4 * |elements| && start + |piece| <= |elements|
    requires piece == elements[start .. start + |piece|]
    ensures var store := Splice(bytes, 4 * start, Bytes(piece)[..|piece|]);
            && (forall j :: 4 * start <= j < 4 * start + |piece| ==> store[j] == Bytes(elements)[j])
            && (forall j :: 4 * start + |piece| <= j < 4 * (start + |piece|) ==> store[j] == bytes[j])
  {
    var short := Bytes(piece)[..|piece|];
    var store := Splice(bytes, 4 * start, short);
    forall j | 4 * start <= j < 4 * start + |piece|
      ensures store[j] == Bytes(elements)[j]
    {
      SpliceAt(bytes, 4 * start, short, j - 4 * start);
      BytesAt(elements, start, piece, j - 4 * start);
    }
    forall j | 4 * start + |piece| <= j < 4 * (start + |piece|)
      ensures store[j] == bytes[j]
    {
      SpliceOutside(bytes, 4 * start, short, j);
    }
  }

  /**
    The driver: which buffer is bound to each target, the store of each live
    buffer name, and whether any call so far was rejected.
   */
  datatype DriverState = DriverState(bound: map<int, nat>, stores: map<nat, seq<GLByte>>, failed: bool)

  /** No buffer exists and nothing has failed. */
  const Idle: DriverState := DriverState(map[], map[], false)

  /** The live buffer bound to `target`, if any. */
  function BoundStore(d: DriverState, target: int): (r: Option<nat>)
    ensures r.Some? <==> target in d.bound && d.bound[target] in d.stores
    ensures r.Some? ==> r.value == d.bound[target]
  {
    if target in d.bound && d.bound[target] in d.stores then Some(d.bound[target]) else None
  }

  /**
    Whether the driver carries out a call. Binding a name that is not a live
    buffer is an error (the core profile's rule), and so is a data call on a
    target with no live buffer bound or a sub-upload that does not fit inside
    the store. A size larger than the client array reads past its end, which
    is undefined; it is rejected here too.
   */
  predicate Accepts(d: DriverState, e: GLEvent)
  {
    match e
    case CreateBuffers(_) => true
    case BindBuffer(_, name) => name in d.stores
    case BufferData(target, size, data, _) =>
      BoundStore(d, target).Some? && 0 <= size <= 4 * data.Size()
    case BufferSubData(target, offset, size, data) =>
      && BoundStore(d, target).Some?
      && 0 <= offset && 0 <= size <= 4 * data.Size()
      && offset + size <= |d.stores[BoundStore(d, target).value]|
    case DeleteBuffers(_) => true
  }

  /**
    One driver call. A rejected call only raises the error flag. `glBufferData`
    replaces the bound store by the first `size` bytes of the data;
    `glBufferSubData` writes the first `size` bytes of the data at byte
    `offset`; `glDeleteBuffers` frees the name and unbinds it.
   */
  function Step(d: DriverState, e: GLEvent): (r: DriverState)
    ensures r.failed == (d.failed || !Accepts(d, e))
    ensures !Accepts(d, e) ==> r.bound == d.bound && r.stores == d.stores
    ensures Accepts(d, e) && e.BufferData? ==>
              var name := BoundStore(d, e.target).value;
              r.stores.Keys == d.stores.Keys && |r.stores[name]| == e.size
    ensures Accepts(d, e) && e.BufferSubData? ==>
              var name := BoundStore(d, e.target).value;
              && r.stores.Keys == d.stores.Keys && |r.stores[name]| == |d.stores[name]|
              && forall j :: 0 <= j < |d.stores[name]| && !(e.byteOffset <= j < e.byteOffset + e.size) ==>
                   r.stores[name][j] == d.stores[name][j]
  {
    if !Accepts(d, e) then d.(failed := true)
    else
      match e
      case CreateBuffers(name) => d.(stores := d.stores[name := []])
      case BindBuffer(target, name) => d.(bound := d.bound[target := name])
      case BufferData(target, size, data, _) =>
        var name := BoundStore(d, target).value;
        d.(stores := d.stores[name := Bytes(Scalars(data))[..size]])
      case BufferSubData(target, offset, size, data) =>
        var name := BoundStore(d, target).value;
        d.(stores := d.stores[name := Splice(d.stores[name], offset, Bytes(Scalars(data))[..size])])
      case DeleteBuffers(name) =>
        d.(stores := d.stores - {name},
           bound := map t | t in d.bound && d.bound[t] != name :: d.bound[t])
  }

  /** An accepted `glBufferSubData` writes its first `size` bytes at `byteOffset` into the bound store and changes nothing else. */
  lemma SubDataStep(d: DriverState, e: GLEvent)
    requires e.BufferSubData? && Accepts(d, e)
    ensures var name := BoundStore(d, e.target).value;
            Step(d, e) == DriverState(d.bound, d.stores[name := Splice(d.stores[name], e.byteOffset, Bytes(Scalars(e.data))[..e.size])], d.failed)
  {
  }

  /** The driver after a whole log of calls, in order. */
  function Replay(d: DriverState, log: seq<GLEvent>): DriverState
    decreases |log|
  {
    if log == [] then d else Replay(Step(d, log[0]), log[1..])
  }

  /** Replaying from call `i` on is making call `i` and replaying from call `i + 1` on. */
  lemma ReplayFrom(d: DriverState, log: seq<GLEvent>, i: nat)
    requires i < |log|
    ensures Replay(d, log[i..]) == Replay(Step(d, log[i]), log[i + 1..])
  {
    assert log[i..][1..] == log[i + 1..];
  }

  /** Replaying a log in two parts is replaying it whole. */
  lemma {:induction false} ReplayAppend(d: DriverState, log: seq<GLEvent>, more: seq<GLEvent>)
    ensures Replay(d, log + more) == Replay(Replay(d, log), more)
    decreases |log|
  {
    if log == [] {
      assert log + more == more;
    } else {
      assert (log + more)[0] == log[0];
      assert (log + more)[1..] == log[1..] + more;
      ReplayAppend(Step(d, log[0]), log[1..], more);
    }
  }

  /**
    `createBuffer` as written passes the element count as the byte size: the
    store gets one byte per element, holding only the first `n / 4` whole
    elements, and differs from the array whenever the array is not empty.
   */
  lemma AsWrittenDataTruncates(d: DriverState, target: int, elements: Payload, usage: int)
    requires BoundStore(d, target).Some?
    ensures var r := Step(d, BufferData(target, elements.Size(), elements, usage));
            var store := r.stores[BoundStore(d, target).value];
            && r.failed == d.failed
            && |store| == elements.Size()
            && store[..4 * (elements.Size() / 4)] == Bytes(Scalars(elements)[..elements.Size() / 4])
            && (elements.Size() > 0 ==> store != Bytes(Scalars(elements)))
  {
    var values := Scalars(elements);
    var n := elements.Size();
    var store := Bytes(values)[..n];
    assert store[..4 * (n / 4)] == Bytes(values)[..4 * (n / 4)];
    BytesPrefix(values, n / 4);
  }

  /** `glBufferData` with the byte size: the arguments the intended `createBuffer` passes. */
  function ByteSizedData(target: int, elements: Payload, usage: int): (e: GLEvent)
    ensures e.BufferData? && e.target == target && e.data == elements && e.usage == usage
    ensures e.size == 4 * elements.Size()
  {
    BufferData(target, 4 * elements.Size(), elements, usage)
  }

  /** With the byte size, the bound store holds exactly the array, and no other store changes. */
  lemma ByteSizedDataFillsStore(d: DriverState, target: int, elements: Payload, usage: int)
    requires BoundStore(d, target).Some?
    ensures var r := Step(d, ByteSizedData(target, elements, usage));
            var name := BoundStore(d, target).value;
            && r.failed == d.failed && r.bound == d.bound
            && r.stores == d.stores[name := Bytes(Scalars(elements))]
  {
    var bytes := Bytes(Scalars(elements));
    assert bytes[..|bytes|] == bytes;
  }

  /**
    A `glBufferSubData` carrying the run of `elements` at `start` but sized
    in elements, over a store of `|elements|` elements: the first `size`
    bytes of the range take the run's bytes, the rest of the range is left.
   */
  lemma RunUploadShort(d: DriverState, e: GLEvent, elements: seq<Scalar>, start: nat)
    requires e.BufferSubData? && BoundStore(d, e.target).Some?
    requires |d.stores[BoundStore(d, e.target).value]| == 4 * |elements|
    requires e.byteOffset == 4 * start && e.size == e.data.Size()
    requires start + e.size <= |elements| && Scalars(e.data) == elements[start .. start + e.size]
    ensures var name := BoundStore(d, e.target).value;
            var store := Step(d, e).stores[name];
            && Step(d, e).failed == d.failed
            && |store| == 4 * |elements|
            && (forall j :: 4 * start <= j < 4 * start + e.size ==> store[j] == Bytes(elements)[j])
            && (forall j :: 4 * start + e.size <= j < 4 * (start + e.size) ==> store[j] == d.stores[name][j])
  {
    assert Accepts(d, e) by {
      assert e.byteOffset + e.size <= 4 * start + 4 * e.size <= 4 * |elements|;
    }
    SubDataStep(d, e);
    BytesSpliceShort(d.stores[BoundStore(d, e.target).value], elements, start, Scalars(e.data));
  }

  /**
    `updateBuffer` as written on a store of the array's full byte length that
    holds an older image's bytes (as `createBuffer` would leave it if it passed
    byte sizes; as written it leaves a store of only `n` bytes): the upload
    starts at the right byte but covers only `size` bytes, a quarter of the
    range, and the rest of the range keeps its old bytes.
   */
  lemma AsWrittenSubDataStale(d: DriverState, target: int, image: Payload, elements: Payload, range: UpdateRange)
    requires BoundStore(d, target).Some?
    requires d.stores[BoundStore(d, target).value] == Bytes(Scalars(image))
    requires image.Size() == elements.Size() && RangeFits(range, elements.Size())
    ensures var e := SubData(target, elements, range, 4);
            var r := Step(d, e);
            var store := r.stores[BoundStore(d, target).value];
            var start := UploadStart(range);
            && r.failed == d.failed
            && |store| == 4 * elements.Size()
            && (forall j :: 4 * start <= j < 4 * start + e.size ==> store[j] == Bytes(Scalars(elements))[j])
            && (forall j :: 4 * start + e.size <= j < 4 * (start + e.size) ==> store[j] == Bytes(Scalars(image))[j])
  {
    var e := SubData(target, elements, range, 4);
    RunUploadShort(d, e, Scalars(elements), UploadStart(range));
  }

  /**
    Four floats over a correctly sized 16-byte store of zeros (a store
    `createBuffer` as written would not make): a full upload as written leaves
    element 1 at zero.
   */
  lemma AsWrittenFullUploadStale()
    ensures var d := DriverState(map[GL_ARRAY_BUFFER := 1], map[1 := Bytes(Scalars(Floats([0.0, 0.0, 0.0, 0.0])))], false);
            var r := Step(d, SubData(GL_ARRAY_BUFFER, Floats([1.0, 2.0, 3.0, 4.0]), UpdateRange(0, -1), 4));
            r.stores[1][4] == GLByte(FloatScalar(0.0), 0)
            && r.stores[1] != Bytes(Scalars(Floats([1.0, 2.0, 3.0, 4.0])))
  {
    var d := DriverState(map[GL_ARRAY_BUFFER := 1], map[1 := Bytes(Scalars(Floats([0.0, 0.0, 0.0, 0.0])))], false);
    var elements := Floats([1.0, 2.0, 3.0, 4.0]);
    AsWrittenSubDataStale(d, GL_ARRAY_BUFFER, Floats([0.0, 0.0, 0.0, 0.0]), elements, UpdateRange(0, -1));
    var r := Step(d, SubData(GL_ARRAY_BUFFER, elements, UpdateRange(0, -1), 4));
    ByteOf(Scalars(Floats([0.0, 0.0, 0.0, 0.0])), 1, 0);
    ByteOf(Scalars(elements), 1, 0);
    assert r.stores[1][4] == Bytes(Scalars(Floats([0.0, 0.0, 0.0, 0.0])))[4];
  }

  /** Writing the elements' own run over an array that already agrees with them elsewhere gives the elements. */
  lemma RunRestores(image: seq<Scalar>, elements: seq<Scalar>, start: nat, piece: seq<Scalar>)
    requires |image| == |elements| && start + |piece| <= |elements|
    requires piece == elements[start .. start + |piece|]
    requires forall i :: 0 <= i < |elements| && !(start <= i < start + |piece|) ==> image[i] == elements[i]
    ensures Splice(image, start, piece) == elements
  {
    SpliceUnique(image, start, piece, elements);
  }

  /**
    A `glBufferSubData` carrying the bytes of the run of `elements` at
    `start`, over a store holding the bytes of an array that agrees with
    `elements` outside that run, leaves the bytes of `elements` in the store.
   */
  lemma RunUploadRestores(d: DriverState, e: GLEvent, image: seq<Scalar>, elements: seq<Scalar>, start: nat)
    requires e.BufferSubData? && BoundStore(d, e.target).Some?
    requires d.stores[BoundStore(d, e.target).value] == Bytes(image) && |image| == |elements|
    requires e.byteOffset == 4 * start && e.size == 4 * e.data.Size()
    requires start + e.data.Size() <= |elements| && Scalars(e.data) == elements[start .. start + e.data.Size()]
    requires forall i :: 0 <= i < |elements| && !(start <= i < start + e.data.Size()) ==> image[i] == elements[i]
    ensures Step(d, e) == DriverState(d.bound, d.stores[BoundStore(d, e.target).value := Bytes(elements)], d.failed)
  {
    var piece := Scalars(e.data);
    assert Accepts(d, e) by {
      assert e.byteOffset + e.size == 4 * (start + |piece|) <= 4 * |elements|;
    }
    SubDataStep(d, e);
    assert Bytes(piece)[..e.size] == Bytes(piece);
    BytesSplice(image, start, piece);
    RunRestores(image, elements, start, piece);
  }

  /** `glBufferSubData` with the byte size: the arguments the intended `updateBuffer` passes. */
  function ByteSizedSubData(target: int, elements: Payload, range: UpdateRange, bytesPerElement: int): (e: GLEvent)
    requires RangeFits(range, elements.Size())
    ensures e.BufferSubData? && e.target == target
    ensures e.byteOffset == UploadStart(range) * bytesPerElement
    ensures e.size == bytesPerElement * e.data.Size()
    ensures 0 <= UploadStart(range) && UploadStart(range) + e.data.Size() <= elements.Size()
    ensures Scalars(e.data) == Scalars(elements)[UploadStart(range) .. UploadStart(range) + e.data.Size()]
  {
    var e := SubData(target, elements, range, bytesPerElement);
    BufferSubData(target, e.byteOffset, bytesPerElement * e.data.Size(), e.data)
  }

  /**
    With the byte size, a store that holds the array's bytes except inside the
    update range (anywhere when `count == -1`) holds exactly the array's bytes
    after the upload, and no other store changes.
   */
  lemma ByteSizedSubDataRestores(d: DriverState, target: int, image: Payload, elements: Payload, range: UpdateRange)
    requires BoundStore(d, target).Some?
    requires d.stores[BoundStore(d, target).value] == Bytes(Scalars(image))
    requires image.Size() == elements.Size() && RangeFits(range, elements.Size())
    requires range.count != -1 ==>
               forall i :: 0 <= i < elements.Size() && !(range.offset <= i < range.offset + range.count) ==>
                 Scalars(image)[i] == Scalars(elements)[i]
    ensures var r := Step(d, ByteSizedSubData(target, elements, range, 4));
            var name := BoundStore(d, target).value;
            && r.failed == d.failed && r.bound == d.bound
            && r.stores == d.stores[name := Bytes(Scalars(elements))]
  {
    var e := ByteSizedSubData(target, elements, range, 4);
    RunUploadRestores(d, e, Scalars(image), Scalars(elements), UploadStart(range));
  }

  /**
    After `createBuffer` as written, a partial upload whose byte range ends
    past the element count (`4 * offset + count > n`) does not fit the
    `n`-byte store: the driver rejects it and no store changes.
   */
  lemma AsWrittenPartialRejected(d: DriverState, target: int, elements: Payload, usage: int, range: UpdateRange)
    requires BoundStore(d, target).Some?
    requires RangeFits(range, elements.Size()) && range.count != -1
    requires 4 * range.offset + range.count > elements.Size()
    ensures var d1 := Step(d, BufferData(target, elements.Size(), elements, usage));
            var d2 := Step(d1, SubData(target, elements, range, 4));
            d2.failed && d2.stores == d1.stores
  {
    AsWrittenDataTruncates(d, target, elements, usage);
  }

  /**
    The calls `update` makes for an attribute of 12 elements, then for a
    one-item update range of 3 elements from element 3 (as in
    `GLScenarios.PartialUploadRejected`): the 12-byte store cannot take 3 bytes at
    byte 12, and the driver reports an error.
   */
  lemma AsWrittenPositionsRejected(positions: Payload, item: Payload, usage: int)
    requires positions.Size() == 12 && item.Size() == 3
    ensures Replay(Idle, CreateCalls(1, positions, usage) +
                         [BindBuffer(GL_ARRAY_BUFFER, 1), BufferSubData(GL_ARRAY_BUFFER, 12, 3, item)]).failed
  {
    var tail := [BindBuffer(GL_ARRAY_BUFFER, 1), BufferSubData(GL_ARRAY_BUFFER, 12, 3, item)];
    AsWrittenCreate(Idle, 1, positions, usage);
    var d3 := Replay(Idle, CreateCalls(1, positions, usage));
    assert d3.stores.Keys == {1} && |d3.stores[1]| == 12 && d3.bound == map[GL_ARRAY_BUFFER := 1];
    var d4 := Step(d3, tail[0]);
    assert !Accepts(d4, tail[1]);
    ReplayFrom(d3, tail, 0);
    ReplayFrom(d4, tail, 1);
    assert tail[2..] == [];
    ReplayAppend(Idle, CreateCalls(1, positions, usage), tail);
  }

  /** The driver calls `createBuffer` makes, as written, for `p` under `name` on `GL_ARRAY_BUFFER`. */
  function CreateCalls(name: nat, p: Payload, usage: int): seq<GLEvent>
  {
    [CreateBuffers(name), BindBuffer(GL_ARRAY_BUFFER, name), BufferData(GL_ARRAY_BUFFER, p.Size(), p, usage)]
  }

  /**
    The calls `createBuffer` makes for a payload, as written, under a name
    that is not yet a buffer: the name becomes a buffer bound to
    `GL_ARRAY_BUFFER`, holding the first `n` bytes of the payload.
   */
  lemma AsWrittenCreate(d: DriverState, name: nat, p: Payload, usage: int)
    requires name !in d.stores
    ensures Replay(d, CreateCalls(name, p, usage))
            == DriverState(d.bound[GL_ARRAY_BUFFER := name], d.stores[name := Bytes(Scalars(p))[..p.Size()]], d.failed)
  {
    var log := CreateCalls(name, p, usage);
    var d1 := Step(d, log[0]);
    assert d1 == DriverState(d.bound, d.stores[name := []], d.failed);
    var d2 := Step(d1, log[1]);
    assert d2 == DriverState(d.bound[GL_ARRAY_BUFFER := name], d.stores[name := []], d.failed);
    assert d.stores[name := []][name := Bytes(Scalars(p))[..p.Size()]] == d.stores[name := Bytes(Scalars(p))[..p.Size()]];
    ReplayFrom(d, log, 0);
    ReplayFrom(d1, log, 1);
    ReplayFrom(d2, log, 2);
    assert log[3..] == [];
  }

  /**
    From two buffers with `GL_ARRAY_BUFFER` bound to buffer 2: deleting
    buffer 1, binding it again (rejected, it is no longer a buffer) and
    sub-uploading writes into buffer 2.
   */
  lemma StaleTail(s1: seq<GLByte>, s2: seq<GLByte>, a: Payload)
    requires a.Size() <= |s2|
    ensures Replay(DriverState(map[GL_ARRAY_BUFFER := 2], map[1 := s1, 2 := s2], false),
                   [DeleteBuffers(1), BindBuffer(GL_ARRAY_BUFFER, 1), BufferSubData(GL_ARRAY_BUFFER, 0, a.Size(), a)])
            == DriverState(map[GL_ARRAY_BUFFER := 2], map[2 := Splice(s2, 0, Bytes(Scalars(a))[..a.Size()])], true)
  {
    var d := DriverState(map[GL_ARRAY_BUFFER := 2], map[1 := s1, 2 := s2], false);
    var log := [DeleteBuffers(1), BindBuffer(GL_ARRAY_BUFFER, 1), BufferSubData(GL_ARRAY_BUFFER, 0, a.Size(), a)];
    var d1 := Step(d, log[0]);
    assert d1.bound == map[GL_ARRAY_BUFFER := 2];
    assert d1.stores == map[2 := s2];
    var d2 := Step(d1, log[1]);
    assert d2 == DriverState(map[GL_ARRAY_BUFFER := 2], map[2 := s2], true);
    SubDataStep(d2, log[2]);
    ReplayFrom(d, log, 0);
    ReplayFrom(d1, log, 1);
    ReplayFrom(d2, log, 2);
    assert log[3..] == [];
  }

  /**
    `remove` as written, with a second attribute cached after the first: the
    first attribute's buffer (name 1) is deleted but its entry stays, and its
    next `update` binds name 1, which is no longer a buffer, so the driver
    rejects the bind. `GL_ARRAY_BUFFER` is still bound to the second
    attribute's buffer (name 2), and the sub-upload lands there: byte 0 of the
    second attribute's store now belongs to the first attribute's element 0.
   */
  lemma AsWrittenStaleUpdate(a: Payload, b: Payload, usage: int)
    requires 1 <= a.Size() <= b.Size()
    ensures var d := Replay(Idle, CreateCalls(1, a, usage) + CreateCalls(2, b, usage) +
                                  [DeleteBuffers(1), BindBuffer(GL_ARRAY_BUFFER, 1),
                                   BufferSubData(GL_ARRAY_BUFFER, 0, a.Size(), a)]);
            && d.failed && 1 !in d.stores && 2 in d.stores
            && |d.stores[2]| == b.Size()
            && d.stores[2][0] == GLByte(Scalars(a)[0], 0)
            && (Scalars(a)[0] != Scalars(b)[0] ==> d.stores[2] != Bytes(Scalars(b))[..b.Size()])
  {
    var first, second := CreateCalls(1, a, usage), CreateCalls(2, b, usage);
    var tail := [DeleteBuffers(1), BindBuffer(GL_ARRAY_BUFFER, 1), BufferSubData(GL_ARRAY_BUFFER, 0, a.Size(), a)];
    var s1, s2 := Bytes(Scalars(a))[..a.Size()], Bytes(Scalars(b))[..b.Size()];
    AsWrittenCreate(Idle, 1, a, usage);
    var d3 := DriverState(map[GL_ARRAY_BUFFER := 1], map[1 := s1], false);
    assert Replay(Idle, first) == d3;
    AsWrittenCreate(d3, 2, b, usage);
    var d6 := DriverState(map[GL_ARRAY_BUFFER := 2], map[1 := s1, 2 := s2], false);
    assert Replay(d3, second) == d6;
    StaleTail(s1, s2, a);
    ReplayAppend(Idle, first, second);
    ReplayAppend(Idle, first + second, tail);
    var piece := Bytes(Scalars(a))[..a.Size()];
    SpliceAt(s2, 0, piece, 0);
    ByteOf(Scalars(a), 0, 0);
    ByteOf(Scalars(b), 0, 0);
  }
}
