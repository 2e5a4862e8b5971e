/**
  `BufferAttribute<T>`: a flat array of scalars of type `T`, grouped into
  items of `itemSize` components, with a version counter, a usage hint and an
  update range that the GL layer reads when it uploads the array.
 */
module Attributes {
  import opened Layout

  /** GL_STATIC_DRAW, the usage hint a fresh attribute carries. */
  const StaticDrawUsage: int := 0x88E4

  /** `version` is an `unsigned int`: it counts modulo 2^32. */
  const VersionModulus: nat := 0x1_0000_0000

  /** `version++` on an `unsigned int`. */
  function NextVersion(v: nat): (r: nat)
    requires v < VersionModulus
    ensures r < VersionModulus
    ensures v + 1 < VersionModulus ==> r == v + 1
    ensures v + 1 == VersionModulus ==> r == 0
  {
    (v + 1) % VersionModulus
  }

  /** The part of the array the GL layer re-uploads; `count == -1` means all of it. */
  datatype UpdateRange = UpdateRange(offset: int, count: int)

  /** The engine's vectors are not templates: their components are `float`. */
  datatype Vector2 = Vector2(x: real, y: real)
  datatype Vector3 = Vector3(x: real, y: real, z: real)
  datatype Vector4 = Vector4(x: real, y: real, z: real, w: real)

  /**
    The implicit `float` to `int` conversion in `array_[offset++] = vector.x`
    for an `int` attribute: the fraction is discarded, rounding toward zero.
    (For a `float` attribute the conversion is the identity.)
   */
  function TruncateToInt(x: real): (n: int)
    ensures x >= 0.0 ==> 0 <= n && n as real <= x < n as real + 1.0
    ensures x < 0.0 ==> n <= 0 && n as real - 1.0 < x <= n as real
  {
    if x >= 0.0 then x.Floor else -((-x).Floor)
  }

  /** The converted components of each vector, one row per vector. */
  function Rows2<T>(vectors: seq<Vector2>, convert: real -> T): (rows: seq<seq<T>>)
    ensures |rows| == |vectors| && Uniform(rows, 2)
  {
    seq(|vectors|, i requires 0 <= i < |vectors| => [convert(vectors[i].x), convert(vectors[i].y)])
  }

  function Rows3<T>(vectors: seq<Vector3>, convert: real -> T): (rows: seq<seq<T>>)
    ensures |rows| == |vectors| && Uniform(rows, 3)
  {
    seq(|vectors|, i requires 0 <= i < |vectors| => [convert(vectors[i].x), convert(vectors[i].y), convert(vectors[i].z)])
  }

  function Rows4<T>(vectors: seq<Vector4>, convert: real -> T): (rows: seq<seq<T>>)
    ensures |rows| == |vectors| && Uniform(rows, 4)
  {
    seq(|vectors|, i requires 0 <= i < |vectors| =>
      [convert(vectors[i].x), convert(vectors[i].y), convert(vectors[i].z), convert(vectors[i].w)])
  }

  /** The number of whole items in an array of `length` scalars. */
  function ItemCount(length: nat, itemSize: int): (n: nat)
    requires itemSize >= 1
    ensures n * itemSize <= length < (n + 1) * itemSize
  {
    length / itemSize
  }

  /**
    The vector a `std::vector` move constructor leaves behind: the storage is
    taken over, the source is left empty.
   */
  function MovedFrom<T>(v: seq<T>): seq<T>
  {
    []
  }

  /**
    `count` as the constructor's initialiser list computes it: members are
    initialised in declaration order, so `array_` has already been
    move-constructed from `array` when `array.size()` is read.
   */
  function CountAsWritten<T>(values: seq<T>, itemSize: int): (n: int)
    requires itemSize >= 1
    ensures n == 0
  {
    |MovedFrom(values)| / itemSize
  }

  /** Two items of six scalars in items of three: the count as written says none. */
  lemma CountAsWrittenMissesItems()
    ensures CountAsWritten([0, 0, 0, 1, 1, 1], 3) == 0
    ensures ItemCount(6, 3) == 2
  {
    assert 2 * 3 <= 6 < 3 * 3;
  }

  class BufferAttribute<T> {
    /** The storage, `array_`. */
    var data: seq<T>
    const itemSize: int
    /** Fixed at construction; `copyArray` does not recompute it. */
    const count: int
    var usage: int
    var updateRange: UpdateRange
    var version: nat

    ghost predicate Valid()
      reads this
    {
      itemSize >= 1 && version < VersionModulus
    }

    /**
      The intended item count is stored. (As written the initialiser reads the
      moved-from parameter and gets 0: see `CountAsWritten`.) `normalized` is
      accepted and not stored, as in the source.
     */
    constructor (values: seq<T>, itemSize: int, normalized: bool)
      requires itemSize >= 1
      ensures Valid()
      ensures data == values && this.itemSize == itemSize
      ensures count == ItemCount(|values|, itemSize)
      ensures usage == StaticDrawUsage && updateRange == UpdateRange(0, -1) && version == 0
    {
      data := values;
      this.itemSize := itemSize;
      count := ItemCount(|values|, itemSize);
      usage := StaticDrawUsage;
      updateRange := UpdateRange(0, -1);
      version := 0;
    }

    /** `array()`: the contents, returned by value. */
    method Array() returns (r: seq<T>)
      ensures r == data
    {
      r := data;
    }

    method NeedsUpdate()
      requires Valid()
      modifies this`version
      ensures Valid()
      ensures version == NextVersion(old(version))
    {
      version := NextVersion(version);
    }

    method SetUsage(value: int)
      modifies this`usage
      ensures usage == value
    {
      usage := value;
    }

    /**
      Copies item `index2` of `attribute` over item `index1` of this one,
      `itemSize` scalars, one at a time. `attribute` may be this attribute:
      two items of one attribute are equal or disjoint, so every scalar is
      read before it could be overwritten.
     */
    method CopyAt(index1: nat, attribute: BufferAttribute<T>, index2: nat)
      requires Valid() && attribute.Valid()
      requires Slot(index1, itemSize, 0) + itemSize <= |data|
      requires Slot(index2, attribute.itemSize, 0) + itemSize <= |attribute.data|
      modifies this`data
      ensures data == Splice(old(data), Slot(index1, itemSize, 0),
                             old(attribute.data)[Slot(index2, attribute.itemSize, 0) .. Slot(index2, attribute.itemSize, 0) + itemSize])
    {
      var offset1 := Slot(index1, itemSize, 0);
      var offset2 := Slot(index2, attribute.itemSize, 0);
      ghost var before, source := data, attribute.data[offset2 .. offset2 + itemSize];
      if attribute == this {
        AlignedItems(index1, index2, itemSize);
      }
      CopyRun(offset1, attribute, offset2);
      assert data == Splice(before, offset1, source);
    }

    /**
      The loop of `copyAt`: `itemSize` scalars of `attribute` from slot `from`
      on, written one at a time from slot `at` on. When `attribute` is this
      attribute the two runs coincide or are disjoint.
     */
    method CopyRun(at: nat, attribute: BufferAttribute<T>, from: nat)
      requires Valid() && at + itemSize <= |data| && from + itemSize <= |attribute.data|
      requires attribute == this ==> at == from || at + itemSize <= from || from + itemSize <= at
      modifies this`data
      ensures data == Splice(old(data), at, old(attribute.data)[from .. from + itemSize])
    {
      ghost var piece := old(attribute.data)[from .. from + itemSize];
      for i := 0 to itemSize
        invariant data == Splice(old(data), at, piece[..i])
        invariant attribute == this || attribute.data == old(attribute.data)
      {
        if attribute == this {
          SpliceUnread(old(data), at, from, itemSize, piece[..i]);
        }
        assert attribute.data[from + i] == piece[i];
        SpliceExtend(old(data), at, piece, i);
        data := data[at + i := attribute.data[from + i]];
      }
      assert piece[..itemSize] == piece;
    }

    method CopyArray(values: seq<T>)
      modifies this`data
      ensures data == values
    {
      data := values;
    }

    /**
      Writes the vectors' components one after another from slot 0, each
      converted from `float` to `T` by `convert`.
     */
    method CopyVector2sArray(vectors: seq<Vector2>, convert: real -> T)
      requires 2 * |vectors| <= |data|
      modifies this`data
      ensures |data| == |old(data)|
      ensures data == Flatten(Rows2(vectors, convert)) + old(data)[2 * |vectors|..]
    {
      ghost var rows := Rows2(vectors, convert);
      var offset := 0;
      for i := 0 to |vectors|
        invariant offset == 2 * i
        invariant |data| == |old(data)|
        invariant data == Flatten(rows[..i]) + old(data)[offset..]
      {
        var vector := vectors[i];
        assert rows[i] == [convert(vector.x), convert(vector.y)];
        ghost var before := data;
        data := data[offset := convert(vector.x)];
        offset := offset + 1;
        data := data[offset := convert(vector.y)];
        offset := offset + 1;
        RowWritten(rows, 2, i, old(data)[2 * i..], before, data);
        assert old(data)[2 * i..][2..] == old(data)[offset..];
      }
      assert rows[..|vectors|] == rows;
    }

    method CopyVector3sArray(vectors: seq<Vector3>, convert: real -> T)
      requires 3 * |vectors| <= |data|
      modifies this`data
      ensures |data| == |old(data)|
      ensures data == Flatten(Rows3(vectors, convert)) + old(data)[3 * |vectors|..]
    {
      ghost var rows := Rows3(vectors, convert);
      var offset := 0;
      for i := 0 to |vectors|
        invariant offset == 3 * i
        invariant |data| == |old(data)|
        invariant data == Flatten(rows[..i]) + old(data)[offset..]
      {
        var vector := vectors[i];
        assert rows[i] == [convert(vector.x), convert(vector.y), convert(vector.z)];
        ghost var before := data;
        data := data[offset := convert(vector.x)];
        offset := offset + 1;
        data := data[offset := convert(vector.y)];
        offset := offset + 1;
        data := data[offset := convert(vector.z)];
        offset := offset + 1;
        RowWritten(rows, 3, i, old(data)[3 * i..], before, data);
        assert old(data)[3 * i..][3..] == old(data)[offset..];
      }
      assert rows[..|vectors|] == rows;
    }

    method CopyVector4sArray(vectors: seq<Vector4>, convert: real -> T)
      requires 4 * |vectors| <= |data|
      modifies this`data
      ensures |data| == |old(data)|
      ensures data == Flatten(Rows4(vectors, convert)) + old(data)[4 * |vectors|..]
    {
      ghost var rows := Rows4(vectors, convert);
      var offset := 0;
      for i := 0 to |vectors|
        invariant offset == 4 * i
        invariant |data| == |old(data)|
        invariant data == Flatten(rows[..i]) + old(data)[offset..]
      {
        var vector := vectors[i];
        assert rows[i] == [convert(vector.x), convert(vector.y), convert(vector.z), convert(vector.w)];
        ghost var before := data;
        data := data[offset := convert(vector.x)];
        offset := offset + 1;
        data := data[offset := convert(vector.y)];
        offset := offset + 1;
        data := data[offset := convert(vector.z)];
        offset := offset + 1;
        data := data[offset := convert(vector.w)];
        offset := offset + 1;
        RowWritten(rows, 4, i, old(data)[4 * i..], before, data);
        assert old(data)[4 * i..][4..] == old(data)[offset..];
      }
      assert rows[..|vectors|] == rows;
    }

    // Component getters: component k of item `index` is slot index * itemSize + k.
    // Only the slot itself is bounds-checked, as `std::vector::operator[]` would
    // need: getY on an attribute of item size 1 reads the next item's X.

    function GetX(index: int): (r: T)
      reads this
      requires 0 <= Slot(index, itemSize, 0) < |data|
      ensures r == data[index * itemSize]
    {
      data[Slot(index, itemSize, 0)]
    }

    function GetY(index: int): (r: T)
      reads this
      requires 0 <= Slot(index, itemSize, 1) < |data|
      ensures r == data[index * itemSize + 1]
    {
      data[Slot(index, itemSize, 1)]
    }

    function GetZ(index: int): (r: T)
      reads this
      requires 0 <= Slot(index, itemSize, 2) < |data|
      ensures r == data[index * itemSize + 2]
    {
      data[Slot(index, itemSize, 2)]
    }

    function GetW(index: int): (r: T)
      reads this
      requires 0 <= Slot(index, itemSize, 3) < |data|
      ensures r == data[index * itemSize + 3]
    {
      data[Slot(index, itemSize, 3)]
    }

    method SetX(index: int, x: T)
      requires 0 <= Slot(index, itemSize, 0) < |data|
      modifies this`data
      ensures data == old(data)[Slot(index, itemSize, 0) := x]
      ensures GetX(index) == x
    {
      data := data[Slot(index, itemSize, 0) := x];
    }

    method SetY(index: int, y: T)
      requires 0 <= Slot(index, itemSize, 1) < |data|
      modifies this`data
      ensures data == old(data)[Slot(index, itemSize, 1) := y]
      ensures GetY(index) == y
    {
      data := data[Slot(index, itemSize, 1) := y];
    }

    method SetZ(index: int, z: T)
      requires 0 <= Slot(index, itemSize, 2) < |data|
      modifies this`data
      ensures data == old(data)[Slot(index, itemSize, 2) := z]
      ensures GetZ(index) == z
    {
      data := data[Slot(index, itemSize, 2) := z];
    }

    method SetW(index: int, w: T)
      requires 0 <= Slot(index, itemSize, 3) < |data|
      modifies this`data
      ensures data == old(data)[Slot(index, itemSize, 3) := w]
      ensures GetW(index) == w
    {
      data := data[Slot(index, itemSize, 3) := w];
    }

    method SetXY(index: int, x: T, y: T)
      requires 0 <= Slot(index, itemSize, 0) && Slot(index, itemSize, 0) + 2 <= |data|
      modifies this`data
      ensures data == Splice(old(data), Slot(index, itemSize, 0), [x, y])
      ensures GetX(index) == x && GetY(index) == y
    {
      var base := index * itemSize;
      data := data[base + 0 := x];
      data := data[base + 1 := y];
    }

    method SetXYZ(index: int, x: T, y: T, z: T)
      requires 0 <= Slot(index, itemSize, 0) && Slot(index, itemSize, 0) + 3 <= |data|
      modifies this`data
      ensures data == Splice(old(data), Slot(index, itemSize, 0), [x, y, z])
      ensures GetX(index) == x && GetY(index) == y && GetZ(index) == z
    {
      var base := index * itemSize;
      data := data[base + 0 := x];
      data := data[base + 1 := y];
      data := data[base + 2 := z];
    }

    method SetXYZW(index: int, x: T, y: T, z: T, w: T)
      requires 0 <= Slot(index, itemSize, 0) && Slot(index, itemSize, 0) + 4 <= |data|
      modifies this`data
      ensures data == Splice(old(data), Slot(index, itemSize, 0), [x, y, z, w])
      ensures GetX(index) == x && GetY(index) == y && GetZ(index) == z && GetW(index) == w
    {
      var base := index * itemSize;
      data := data[base + 0 := x];
      data := data[base + 1 := y];
      data := data[base + 2 := z];
      data := data[base + 3 := w];
    }
  }

  /** After `copyVector2sArray`, converted component k of vector i sits at slot 2 * i + k. */
  lemma Vector2sLaidOut<T>(vectors: seq<Vector2>, convert: real -> T, i: int)
    requires 0 <= i < |vectors|
    ensures |Flatten(Rows2(vectors, convert))| == 2 * |vectors|
    ensures Flatten(Rows2(vectors, convert))[2 * i] == convert(vectors[i].x) && Flatten(Rows2(vectors, convert))[2 * i + 1] == convert(vectors[i].y)
  {
    FlattenAt(Rows2(vectors, convert), 2, i, 0);
    FlattenAt(Rows2(vectors, convert), 2, i, 1);
  }

  /** After `copyVector3sArray`, converted component k of vector i sits at slot 3 * i + k. */
  lemma Vector3sLaidOut<T>(vectors: seq<Vector3>, convert: real -> T, i: int)
    requires 0 <= i < |vectors|
    ensures |Flatten(Rows3(vectors, convert))| == 3 * |vectors|
    ensures Flatten(Rows3(vectors, convert))[3 * i] == convert(vectors[i].x) && Flatten(Rows3(vectors, convert))[3 * i + 1] == convert(vectors[i].y) && Flatten(Rows3(vectors, convert))[3 * i + 2] == convert(vectors[i].z)
  {
    FlattenAt(Rows3(vectors, convert), 3, i, 0);
    FlattenAt(Rows3(vectors, convert), 3, i, 1);
    FlattenAt(Rows3(vectors, convert), 3, i, 2);
  }

  /** After `copyVector4sArray`, converted component k of vector i sits at slot 4 * i + k. */
  lemma Vector4sLaidOut<T>(vectors: seq<Vector4>, convert: real -> T, i: int)
    requires 0 <= i < |vectors|
    ensures |Flatten(Rows4(vectors, convert))| == 4 * |vectors|
    ensures Flatten(Rows4(vectors, convert))[4 * i] == convert(vectors[i].x) && Flatten(Rows4(vectors, convert))[4 * i + 1] == convert(vectors[i].y) && Flatten(Rows4(vectors, convert))[4 * i + 2] == convert(vectors[i].z) && Flatten(Rows4(vectors, convert))[4 * i + 3] == convert(vectors[i].w)
  {
    FlattenAt(Rows4(vectors, convert), 4, i, 0);
    FlattenAt(Rows4(vectors, convert), 4, i, 1);
    FlattenAt(Rows4(vectors, convert), 4, i, 2);
    FlattenAt(Rows4(vectors, convert), 4, i, 3);
  }

  /**
    Two items of one attribute either coincide or do not overlap, so a copy
    between them never reads a scalar it has already written.
   */
  lemma AlignedItems(index1: nat, index2: nat, itemSize: int)
    requires itemSize >= 1
    ensures Slot(index1, itemSize, 0) == Slot(index2, itemSize, 0)
         || Slot(index1, itemSize, 0) + itemSize <= Slot(index2, itemSize, 0)
         || Slot(index2, itemSize, 0) + itemSize <= Slot(index1, itemSize, 0)
  {
    if index1 < index2 {
      assert index1 * itemSize + itemSize == (index1 + 1) * itemSize <= index2 * itemSize;
    } else if index2 < index1 {
      assert index2 * itemSize + itemSize == (index2 + 1) * itemSize <= index1 * itemSize;
    }
  }
}
