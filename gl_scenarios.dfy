/**
  Clients of `GLAttributes` that follow one attribute through a few frames
  and state the driver calls the cache makes.
 */
module GLScenarios {
  import opened Attributes
  import opened GL
  import opened GLDriver

  /**
    A new float attribute of `values` after its first `update` through a new
    cache: one buffer, named 1, created, bound and filled with the element count
    as the size argument.
   */
  method CachedFloats(values: seq<real>, itemSize: int) returns (attribute: BufferAttribute<real>, cache: GLAttributes)
    requires itemSize >= 1
    ensures fresh(attribute) && fresh(cache)
    ensures attribute.Valid() && attribute.data == values && attribute.itemSize == itemSize
    ensures attribute.updateRange == UpdateRange(0, -1) && attribute.version == 0
    ensures cache.Valid() && cache.nextName == 2
    ensures cache.buffers == map[attribute as object := Buffer(1, GL_FLOAT, 4, 0)]
    ensures cache.log == CreateCalls(1, Floats(values), StaticDrawUsage)
  {
    attribute := new BufferAttribute<real>(values, itemSize, false);
    cache := new GLAttributes();
    cache.Update(FloatAttribute(attribute), GL_ARRAY_BUFFER);
  }

  /** The same for an int attribute: its buffer is `GL_UNSIGNED_INT`. */
  method CachedInts(values: seq<int>, itemSize: int) returns (attribute: BufferAttribute<int>, cache: GLAttributes)
    requires itemSize >= 1
    ensures fresh(attribute) && fresh(cache)
    ensures attribute.Valid() && attribute.data == values && attribute.itemSize == itemSize
    ensures attribute.updateRange == UpdateRange(0, -1) && attribute.version == 0
    ensures cache.Valid() && cache.nextName == 2
    ensures cache.buffers == map[attribute as object := Buffer(1, GL_UNSIGNED_INT, 4, 0)]
    ensures cache.log == CreateCalls(1, Ints(values), StaticDrawUsage)
  {
    attribute := new BufferAttribute<int>(values, itemSize, false);
    cache := new GLAttributes();
    cache.Update(IntAttribute(attribute), GL_ARRAY_BUFFER);
  }

  /**
    A position attribute of four 3-float items: the first `update` creates and
    fills its buffer (the size argument is the element count, 12); after one
    component is changed and a one-item update range (3 elements from element
    3) is set, the next `update` uploads those 3 elements at byte 12 and
    consumes the range.
   */
  method PartialUpload() returns (created: GLEvent, partial: GLEvent, rangeAfter: UpdateRange, log: seq<GLEvent>)
    ensures created == BufferData(GL_ARRAY_BUFFER, 12, Floats([0.0, 0.0, 0.0, 1.0, 1.0, 1.0, 2.0, 2.0, 2.0, 3.0, 3.0, 3.0]), StaticDrawUsage)
    ensures partial == BufferSubData(GL_ARRAY_BUFFER, 12, 3, Floats([9.0, 1.0, 1.0]))
    ensures rangeAfter == UpdateRange(3, -1)
    ensures log == CreateCalls(1, Floats([0.0, 0.0, 0.0, 1.0, 1.0, 1.0, 2.0, 2.0, 2.0, 3.0, 3.0, 3.0]), StaticDrawUsage) +
                   [BindBuffer(GL_ARRAY_BUFFER, 1), partial]
  {
    var position, cache := CachedFloats([0.0, 0.0, 0.0, 1.0, 1.0, 1.0, 2.0, 2.0, 2.0, 3.0, 3.0, 3.0], 3);
    var attribute := FloatAttribute(position);
    created := cache.log[2];

    position.SetX(1, 9.0);
    ghost var edited := [0.0, 0.0, 0.0, 9.0, 1.0, 1.0, 2.0, 2.0, 2.0, 3.0, 3.0, 3.0];
    assert position.data == edited;
    position.NeedsUpdate();
    position.updateRange := UpdateRange(3, 3);
    cache.Update(attribute, GL_ARRAY_BUFFER);
    partial := cache.log[4];
    EditedItemUpload(edited);
    rangeAfter := position.updateRange;
    log := cache.log;
  }

  /**
    The calls of `PartialUpload` replayed by the driver: the 12-byte store
    cannot take 3 bytes at byte 12, and the driver ends in error.
   */
  method PartialUploadRejected() returns (log: seq<GLEvent>)
    ensures log == CreateCalls(1, Floats([0.0, 0.0, 0.0, 1.0, 1.0, 1.0, 2.0, 2.0, 2.0, 3.0, 3.0, 3.0]), StaticDrawUsage) +
                   [BindBuffer(GL_ARRAY_BUFFER, 1), BufferSubData(GL_ARRAY_BUFFER, 12, 3, Floats([9.0, 1.0, 1.0]))]
    ensures Replay(Idle, log).failed
  {
    AsWrittenPositionsRejected(Floats([0.0, 0.0, 0.0, 1.0, 1.0, 1.0, 2.0, 2.0, 2.0, 3.0, 3.0, 3.0]),
                               Floats([9.0, 1.0, 1.0]), StaticDrawUsage);
    var created, partial, rangeAfter;
    created, partial, rangeAfter, log := PartialUpload();
  }

  /** The upload of item 1 of the edited positions: 3 elements at byte 12. */
  lemma EditedItemUpload(edited: seq<real>)
    requires edited == [0.0, 0.0, 0.0, 9.0, 1.0, 1.0, 2.0, 2.0, 2.0, 3.0, 3.0, 3.0]
    ensures SubData(GL_ARRAY_BUFFER, Floats(edited), UpdateRange(3, 3), 4) ==
            BufferSubData(GL_ARRAY_BUFFER, 12, 3, Floats([9.0, 1.0, 1.0]))
  {
    assert edited[3..6] == [9.0, 1.0, 1.0];
  }

  /**
    `update` twice with nothing changed in between: the second call is not a
    no-op but uploads the whole array again, and the entry's version moves
    past the attribute's.
   */
  method RepeatedUpdate() returns (repeated: GLEvent, synced: nat, current: nat)
    ensures repeated == BufferSubData(GL_ARRAY_BUFFER, 0, 3, Floats([1.0, 2.0, 3.0]))
    ensures synced == 1 && current == 0
  {
    var position, cache := CachedFloats([1.0, 2.0, 3.0], 3);
    var attribute := FloatAttribute(position);
    cache.Update(attribute, GL_ARRAY_BUFFER);
    repeated := cache.log[4];
    synced := cache.Get(attribute).value.version;
    current := position.version;
  }

  /**
    `remove` as written: the buffer is deleted, the entry stays, and the next
    `update` asks to bind the deleted name again (a call the driver rejects)
    and then sub-uploads into whatever buffer is still bound to the target.
   */
  method RemoveKeepsEntry() returns (deleted: GLEvent, stillCached: bool, rebound: GLEvent)
    ensures deleted == DeleteBuffers(1)
    ensures stillCached
    ensures rebound == BindBuffer(GL_ARRAY_BUFFER, 1)
  {
    var index, cache := CachedInts([0, 1, 2], 1);
    var attribute := IntAttribute(index);
    cache.Remove(attribute);
    deleted := cache.log[3];
    stillCached := cache.Get(attribute).Some?;
    cache.Update(attribute, GL_ARRAY_BUFFER);
    rebound := cache.log[4];
  }

  /**
    `remove` as written, with a second attribute cached after the first: the
    first attribute's stale `update` cannot rebind its deleted buffer 1, so
    `GL_ARRAY_BUFFER` stays bound to the second attribute's buffer 2 and the
    first attribute's elements overwrite the start of the second's store.
   */
  method StaleUpdateOverwrites() returns (log: seq<GLEvent>)
    ensures log == CreateCalls(1, Ints([0, 1, 2]), StaticDrawUsage) +
                   CreateCalls(2, Ints([5, 6, 7]), StaticDrawUsage) +
                   [DeleteBuffers(1), BindBuffer(GL_ARRAY_BUFFER, 1),
                    BufferSubData(GL_ARRAY_BUFFER, 0, 3, Ints([0, 1, 2]))]
    ensures var d := Replay(Idle, log);
            && d.failed && 2 in d.stores && |d.stores[2]| == 3
            && d.stores[2][0] == GLByte(IntScalar(0), 0)
            && d.stores[2] != Bytes(Scalars(Ints([5, 6, 7])))[..3]
  {
    AsWrittenStaleUpdate(Ints([0, 1, 2]), Ints([5, 6, 7]), StaticDrawUsage);
    var first, second, cache := CachedIntPair();
    cache.Remove(IntAttribute(first));
    cache.Update(IntAttribute(first), GL_ARRAY_BUFFER);
    log := cache.log;
  }

  /** Two int attributes, `[0, 1, 2]` and then `[5, 6, 7]`, cached in turn as buffers 1 and 2. */
  method CachedIntPair() returns (first: BufferAttribute<int>, second: BufferAttribute<int>, cache: GLAttributes)
    ensures fresh(first) && fresh(second) && fresh(cache)
    ensures first.Valid() && first.data == [0, 1, 2] && first.updateRange == UpdateRange(0, -1) && first.version == 0
    ensures cache.Valid() && IntAttribute(first).Object() in cache.buffers
    ensures cache.buffers[IntAttribute(first).Object()] == Buffer(1, GL_UNSIGNED_INT, 4, 0)
    ensures cache.log == CreateCalls(1, Ints([0, 1, 2]), StaticDrawUsage) +
                         CreateCalls(2, Ints([5, 6, 7]), StaticDrawUsage)
  {
    first, cache := CachedInts([0, 1, 2], 1);
    second := new BufferAttribute<int>([5, 6, 7], 1, false);
    cache.Update(IntAttribute(second), GL_ARRAY_BUFFER);
  }

  /**
    With the entry erased on removal, `get` reports it missing and the next
    `update` creates a new buffer under a new name.
   */
  method EvictForgetsEntry() returns (deleted: GLEvent, stillCached: bool, recreated: GLEvent)
    ensures deleted == DeleteBuffers(1)
    ensures !stillCached
    ensures recreated == CreateBuffers(2)
  {
    var index, cache := CachedInts([0, 1, 2], 1);
    var attribute := IntAttribute(index);
    cache.Evict(attribute);
    deleted := cache.log[3];
    stillCached := cache.Get(attribute).Some?;
    cache.Update(attribute, GL_ARRAY_BUFFER);
    recreated := cache.log[4];
  }
}
