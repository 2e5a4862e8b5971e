/**
  `GLAttributes`: the renderer's cache from an attribute (by identity) to the
  GL buffer that holds a copy of its array. The GL driver is represented by
  the log of calls made to it and by the counter from which it hands out
  buffer names.
 */
module GL {
  import opened Wrappers
  import opened Attributes

  const GL_ARRAY_BUFFER: int := 0x8892
  const GL_UNSIGNED_INT: int := 0x1405
  const GL_FLOAT: int := 0x1406

  /** The element types the cache can upload: `IntBufferAttribute` and `FloatBufferAttribute`. */
  datatype ElementKind = Int | Float

  /** The GL element type recorded for a kind. */
  function GLType(kind: ElementKind): (t: int)
    ensures t == GL_UNSIGNED_INT <==> kind == Int
    ensures t == GL_FLOAT <==> kind == Float
  {
    match kind
    case Int => GL_UNSIGNED_INT
    case Float => GL_FLOAT
  }

  /** `sizeof(int)` and `sizeof(float)`: 4 on every platform the engine builds for. */
  function SizeOf(kind: ElementKind): int
  {
    4
  }

  /** An array handed to the driver, tagged with its element type. */
  datatype Payload = Ints(ints: seq<int>) | Floats(floats: seq<real>)
  {
    function Size(): nat
    {
      match this
      case Ints(s) => |s|
      case Floats(s) => |s|
    }
  }

  /** One element of a payload, whatever its type. */
  datatype Scalar = IntScalar(i: int) | FloatScalar(f: real)

  /** The elements of a payload, in order. */
  function Scalars(p: Payload): (r: seq<Scalar>)
    ensures |r| == p.Size()
    ensures p.Ints? ==> forall i :: 0 <= i < |r| ==> r[i] == IntScalar(p.ints[i])
    ensures p.Floats? ==> forall i :: 0 <= i < |r| ==> r[i] == FloatScalar(p.floats[i])
  {
    match p
    case Ints(s) => seq(|s|, i requires 0 <= i < |s| => IntScalar(s[i]))
    case Floats(s) => seq(|s|, i requires 0 <= i < |s| => FloatScalar(s[i]))
  }

  /** An attribute as the cache sees it: its object identity and its element type. */
  datatype AttributeRef = IntAttribute(ints: BufferAttribute<int>) | FloatAttribute(floats: BufferAttribute<real>)
  {
    function Object(): object
    {
      match this
      case IntAttribute(a) => a
      case FloatAttribute(a) => a
    }

    function Kind(): ElementKind
    {
      match this
      case IntAttribute(_) => Int
      case FloatAttribute(_) => Float
    }

    ghost predicate Valid()
      reads Object()
    {
      match this
      case IntAttribute(a) => a.Valid()
      case FloatAttribute(a) => a.Valid()
    }

    function Elements(): Payload
      reads Object()
    {
      match this
      case IntAttribute(a) => Ints(a.data)
      case FloatAttribute(a) => Floats(a.data)
    }

    function Usage(): int
      reads Object()
    {
      match this
      case IntAttribute(a) => a.usage
      case FloatAttribute(a) => a.usage
    }

    function Version(): nat
      reads Object()
    {
      match this
      case IntAttribute(a) => a.version
      case FloatAttribute(a) => a.version
    }

    function Range(): UpdateRange
      reads Object()
    {
      match this
      case IntAttribute(a) => a.updateRange
      case FloatAttribute(a) => a.updateRange
    }
  }

  /** A cache entry: the GL buffer name, its element type and size, and a version counter. */
  datatype Buffer = Buffer(buffer: nat, glType: int, bytesPerElement: int, version: nat)

  /** The driver calls the cache makes, in the order it makes them. */
  datatype GLEvent =
    | CreateBuffers(name: nat)
    | BindBuffer(target: int, name: nat)
    | BufferData(target: int, size: int, data: Payload, usage: int)
    | BufferSubData(target: int, byteOffset: int, size: int, data: Payload)
    | DeleteBuffers(name: nat)

  /** An update range `updateBuffer` can slice: "everything", or a run inside the array. */
  predicate RangeFits(range: UpdateRange, length: nat)
  {
    range.count == -1 || (0 <= range.offset && 0 <= range.count && range.offset + range.count <= length)
  }

  /** The arguments of one `glBufferSubData` call: byte offset, size argument, data. */
  datatype Upload<E> = Upload(byteOffset: int, size: int, data: seq<E>)

  /** The first element an upload under `range` covers. */
  function UploadStart(range: UpdateRange): int
  {
    if range.count == -1 then 0 else range.offset
  }

  /**
    What `updateBuffer` uploads for `elements` under `range`: the whole array at
    byte 0 when `count == -1`, otherwise elements `offset .. offset + count` at
    byte `offset * bytesPerElement`. The size argument is the element count.
   */
  function RangeUpload<E>(elements: seq<E>, range: UpdateRange, bytesPerElement: int): (u: Upload<E>)
    requires RangeFits(range, |elements|)
    ensures u.size == |u.data|
    ensures u.byteOffset == UploadStart(range) * bytesPerElement
    ensures 0 <= UploadStart(range) && UploadStart(range) + |u.data| <= |elements|
    ensures forall k :: 0 <= k < |u.data| ==> u.data[k] == elements[UploadStart(range) + k]
    ensures range.count == -1 ==> u.byteOffset == 0 && |u.data| == |elements|
    ensures range.count != -1 ==> u.byteOffset == range.offset * bytesPerElement && |u.data| == range.count
  {
    if range.count == -1 then
      Upload(0, |elements|, elements)
    else
      Upload(range.offset * bytesPerElement, range.count, elements[range.offset .. range.offset + range.count])
  }

  /** The `glBufferSubData` call `updateBuffer` makes, with its payload tagged. */
  function SubData(target: int, elements: Payload, range: UpdateRange, bytesPerElement: int): (e: GLEvent)
    requires RangeFits(range, elements.Size())
    ensures e.BufferSubData? && e.target == target
    ensures e.byteOffset == UploadStart(range) * bytesPerElement
    ensures e.size == e.data.Size() == (if range.count == -1 then elements.Size() else range.count)
    ensures e.data.Ints? <==> elements.Ints?
    ensures 0 <= UploadStart(range) && UploadStart(range) + e.size <= elements.Size()
    ensures Scalars(e.data) == Scalars(elements)[UploadStart(range) .. UploadStart(range) + e.size]
  {
    match elements
    case Ints(s) =>
      var u := RangeUpload(s, range, bytesPerElement);
      BufferSubData(target, u.byteOffset, u.size, Ints(u.data))
    case Floats(s) =>
      var u := RangeUpload(s, range, bytesPerElement);
      BufferSubData(target, u.byteOffset, u.size, Floats(u.data))
  }

  /** The update range `updateBuffer` leaves: a partial range is consumed, "everything" stays. */
  function RangeAfterUpload(range: UpdateRange): (r: UpdateRange)
    ensures r.count == -1 && r.offset == range.offset
  {
    range.(count := -1)
  }

  class GLAttributes {
    /** `buffers_`, keyed by the attribute object. */
    var buffers: map<object, Buffer>
    /** The name the driver hands out on the next `glCreateBuffers`; it never reuses one. */
    var nextName: nat
    /** Every driver call made so far. */
    var log: seq<GLEvent>

    ghost predicate Valid()
      reads this
    {
      && 0 < nextName
      && (forall a | a in buffers :: 0 < buffers[a].buffer < nextName)
      && (forall a | a in buffers ::
            buffers[a].bytesPerElement == 4 && buffers[a].version < VersionModulus &&
            (buffers[a].glType == GL_UNSIGNED_INT || buffers[a].glType == GL_FLOAT))
      && (forall a, b | a in buffers && b in buffers && a != b :: buffers[a].buffer != buffers[b].buffer)
    }

    constructor ()
      ensures Valid()
      ensures buffers == map[] && nextName == 1 && log == []
    {
      buffers := map[];
      nextName := 1;
      log := [];
    }

    /** `createBuffer`: a fresh buffer name, bound and filled with the whole array. */
    method CreateBuffer(attribute: AttributeRef, bufferType: int) returns (b: Buffer)
      requires attribute.Valid()
      modifies this`nextName, this`log
      ensures nextName == old(nextName) + 1
      ensures b == Buffer(old(nextName), GLType(attribute.Kind()), SizeOf(attribute.Kind()), attribute.Version())
      ensures b.version < VersionModulus
      ensures log == old(log) + [CreateBuffers(b.buffer), BindBuffer(bufferType, b.buffer),
                                 BufferData(bufferType, attribute.Elements().Size(), attribute.Elements(), attribute.Usage())]
    {
      var usage := attribute.Usage();
      var buffer := nextName;
      nextName := nextName + 1;
      log := log + [CreateBuffers(buffer)];
      log := log + [BindBuffer(bufferType, buffer)];
      var glType, bytesPerElement;
      match attribute {
        case IntAttribute(attr) =>
          var values := attr.Array();
          log := log + [BufferData(bufferType, |values|, Ints(values), usage)];
          glType := GL_UNSIGNED_INT;
          bytesPerElement := SizeOf(Int);
        case FloatAttribute(attr) =>
          var values := attr.Array();
          log := log + [BufferData(bufferType, |values|, Floats(values), usage)];
          glType := GL_FLOAT;
          bytesPerElement := SizeOf(Float);
      }
      b := Buffer(buffer, glType, bytesPerElement, attribute.Version());
    }

    /**
      `updateBuffer`: re-binds the buffer and uploads the update range (or the
      whole array), then marks a partial range as consumed.
     */
    method UpdateBuffer(buffer: nat, attribute: AttributeRef, bufferType: int, bytesPerElement: int)
      requires RangeFits(attribute.Range(), attribute.Elements().Size())
      modifies this`log, attribute.Object()
      ensures log == old(log) + [BindBuffer(bufferType, buffer),
                                 SubData(bufferType, old(attribute.Elements()), old(attribute.Range()), bytesPerElement)]
      ensures attribute.Range() == if old(attribute.Range()).count == -1 then old(attribute.Range())
                                   else RangeAfterUpload(old(attribute.Range()))
      ensures attribute.Elements() == old(attribute.Elements()) && attribute.Version() == old(attribute.Version())
      ensures attribute.Usage() == old(attribute.Usage()) && (attribute.Valid() <==> old(attribute.Valid()))
    {
      ghost var expected := SubData(bufferType, attribute.Elements(), attribute.Range(), bytesPerElement);
      log := log + [BindBuffer(bufferType, buffer)];
      var upload: GLEvent;
      match attribute {
        case IntAttribute(attr) =>
          var updateRange := attr.updateRange;
          var values := attr.Array();
          if updateRange.count == -1 {
            upload := BufferSubData(bufferType, 0, |values|, Ints(values));
          } else {
            var sub := values[updateRange.offset .. updateRange.offset + updateRange.count];
            upload := BufferSubData(bufferType, updateRange.offset * bytesPerElement, |sub|, Ints(sub));
            attr.updateRange := RangeAfterUpload(updateRange);
          }
        case FloatAttribute(attr) =>
          var updateRange := attr.updateRange;
          var values := attr.Array();
          if updateRange.count == -1 {
            upload := BufferSubData(bufferType, 0, |values|, Floats(values));
          } else {
            var sub := values[updateRange.offset .. updateRange.offset + updateRange.count];
            upload := BufferSubData(bufferType, updateRange.offset * bytesPerElement, |sub|, Floats(sub));
            attr.updateRange := RangeAfterUpload(updateRange);
          }
      }
      assert upload == expected;
      log := log + [upload];
    }

    /** `get`: the entry for `attribute`; `None` where `buffers_.at` throws `std::out_of_range`. */
    function Get(attribute: AttributeRef): (r: Option<Buffer>)
      reads this
      ensures r.Some? <==> attribute.Object() in buffers
      ensures r.Some? ==> r.value == buffers[attribute.Object()]
    {
      if attribute.Object() in buffers then Some(buffers[attribute.Object()]) else None
    }

    /** `remove`, as written: deletes the GL buffer but keeps the entry. */
    method Remove(attribute: AttributeRef)
      modifies this`log
      ensures attribute.Object() in buffers ==> log == old(log) + [DeleteBuffers(buffers[attribute.Object()].buffer)]
      ensures attribute.Object() !in buffers ==> log == old(log)
    {
      if attribute.Object() in buffers {
        var data := buffers[attribute.Object()];
        log := log + [DeleteBuffers(data.buffer)];
      }
    }

    /** `remove` as evidently intended: deletes the GL buffer and erases the entry. */
    method Evict(attribute: AttributeRef)
      requires Valid()
      modifies this`buffers, this`log
      ensures Valid()
      ensures buffers == old(buffers) - {attribute.Object()}
      ensures attribute.Object() in old(buffers) ==> log == old(log) + [DeleteBuffers(old(buffers)[attribute.Object()].buffer)]
      ensures attribute.Object() !in old(buffers) ==> log == old(log)
    {
      if attribute.Object() in buffers {
        var data := buffers[attribute.Object()];
        log := log + [DeleteBuffers(data.buffer)];
        buffers := buffers - {attribute.Object()};
      }
    }

    /**
      `update`: the first call for an attribute creates its buffer; every later
      call uploads again and bumps the entry's version, with no comparison
      against the attribute's own version.
     */
    method Update(attribute: AttributeRef, bufferType: int)
      requires Valid() && attribute.Valid()
      requires attribute.Object() in buffers ==> RangeFits(attribute.Range(), attribute.Elements().Size())
      modifies this, attribute.Object()
      ensures Valid() && attribute.Valid()
      ensures forall b | b in old(buffers) && b != attribute.Object() :: b in buffers && buffers[b] == old(buffers)[b]
      ensures attribute.Elements() == old(attribute.Elements()) && attribute.Version() == old(attribute.Version())
      ensures attribute.Usage() == old(attribute.Usage())
      ensures attribute.Object() !in old(buffers) ==>
                && buffers == old(buffers)[attribute.Object() :=
                     Buffer(old(nextName), GLType(attribute.Kind()), SizeOf(attribute.Kind()), attribute.Version())]
                && nextName == old(nextName) + 1
                && attribute.Range() == old(attribute.Range())
                && log == old(log) + [CreateBuffers(old(nextName)), BindBuffer(bufferType, old(nextName)),
                                      BufferData(bufferType, attribute.Elements().Size(), attribute.Elements(), attribute.Usage())]
      ensures attribute.Object() in old(buffers) ==>
                var entry := old(buffers)[attribute.Object()];
                && buffers == old(buffers)[attribute.Object() := entry.(version := NextVersion(entry.version))]
                && nextName == old(nextName)
                && attribute.Range() == (if old(attribute.Range()).count == -1 then old(attribute.Range())
                                         else RangeAfterUpload(old(attribute.Range())))
                && log == old(log) + [BindBuffer(bufferType, entry.buffer),
                                      SubData(bufferType, attribute.Elements(), old(attribute.Range()), entry.bytesPerElement)]
    {
      var key := attribute.Object();
      if key !in buffers {
        var b := CreateBuffer(attribute, bufferType);
        buffers := buffers[key := b];
      } else {
        var data := buffers[key];
        UpdateBuffer(data.buffer, attribute, bufferType, data.bytesPerElement);
        buffers := buffers[key := data.(version := NextVersion(data.version))];
      }
    }
  }
}
