# threepp attribute buffers, GL attribute cache and event dispatcher

This project is a Dafny model of three pieces of the threepp rendering engine,
with proofs about each:

- `BufferAttribute<T>` (module `Attributes`, file `buffer_attribute.dfy`). It is a
  flat array of scalars grouped into items of `itemSize` components. It also
  holds a version counter, a usage hint and an update range. The model covers
  the constructor, `array()`, `setUsage`, `copyArray`, the per-item getters
  and setters, the item copy, the bulk copies from vector lists, and
  `needsUpdate`. The array is a `seq<T>` field that the methods
  reassign. The `unsigned int` version wraps modulo 2^32. The engine's vectors
  hold `float` components (Dafny `real` here); the vector copies take the
  conversion to the element type as a parameter `convert`, which for an `int`
  attribute is `TruncateToInt`, C++'s truncation toward zero.
- `GLAttributes` (module `GL`, file `gl_attributes.dfy`). It is the renderer's
  cache from an attribute, looked up by identity, to the GL buffer holding a
  copy of its array. The GL driver appears as two fields: `log`, the list of
  driver calls made so far, and `nextName`, the next buffer name the driver
  hands out. `IntBufferAttribute` and `FloatBufferAttribute` become the two
  cases of `AttributeRef`. The cache's `dynamic_cast` dispatch is a `match` on
  that type.
- `EventDispatcher` (module `Events`, file `event_dispatcher.dfy`). It is a
  table from event type to the ordered list of listener pointers. Listeners
  are values of an equality type. `dispatchEvent` returns the calls it makes,
  in order.

`layout.dfy` (module `Layout`) holds the index arithmetic shared by the
attribute methods: slot positions, splicing a run of slots, and flattening
rows of vectors. `gl_scenarios.dfy` (module `GLScenarios`) follows one or two
attributes through several cache calls and states the exact driver calls made.
`gl_driver.dfy` (module `GLDriver`) gives those calls their meaning: it replays
a log of driver calls over buffer stores of bytes, where the size arguments of
`glBufferData` and `glBufferSubData` count bytes and each `int` or `float`
element takes four of them.

GLAttributes.hpp:1 names three.js r129 `WebGLAttributes.js` as the file it
ports. That file compares versions, erases the entry on removal, and passes
typed arrays, so its sizes are byte counts. The model follows the port where it
departs from that origin:

- `update` never compares versions. Every call after the first uploads again
  and increments the entry's version, so repeated calls are not no-ops and the
  entry's version can run ahead of the attribute's.
- The `size` argument given to `glBufferData`/`glBufferSubData` is the element
  count, which the driver reads as a byte count (see Findings).
- `remove` does not erase the cache entry (see Findings).

Two further points match the three.js origin and are modelled as they are: a
partial range is counted in elements, not items; and it is consumed by setting
its `count` to -1, leaving its `offset` as it was.
- `GLAttributes.hpp` calls `getUsage()`, `version()` and `getUpdateRange()`.
  `BufferAttribute.hpp` declares none of them, so the model
  reads the `usage`, `version` and `updateRange` fields directly.

## Model

| member | source | states |
|---|---|---|
| Attributes.NextVersion | include/threepp/core/BufferAttribute.hpp:29-32 | `version++` on an unsigned int: one more, or 0 after 2^32-1; the result stays below 2^32 |
| Attributes.ItemCount | include/threepp/core/BufferAttribute.hpp:23 | the intended item count `n` is the number of whole items: `n*itemSize <= length < (n+1)*itemSize` |
| Attributes.CountAsWritten | include/threepp/core/BufferAttribute.hpp:23 | the initialiser reads `array.size()` after `array_` has been moved from `array`, so the count is always 0 |
| Attributes.CountAsWrittenMissesItems | include/threepp/core/BufferAttribute.hpp:23 | six scalars in items of three: the count as written is 0, while the intended count is 2 |
| Attributes.BufferAttribute.constructor | include/threepp/core/BufferAttribute.hpp:23 | a fresh attribute holds the given array and item size, the whole-item count, usage StaticDrawUsage, update range {0, -1} and version 0 |
| Attributes.BufferAttribute.Array | include/threepp/core/BufferAttribute.hpp:25-27 | `array()` returns the current contents by value |
| Attributes.BufferAttribute.NeedsUpdate | include/threepp/core/BufferAttribute.hpp:29-32 | only `version` changes, to its unsigned successor, and the attribute stays valid |
| Attributes.BufferAttribute.SetUsage | include/threepp/core/BufferAttribute.hpp:34-39 | only `usage` changes, to the given value |
| Attributes.BufferAttribute.CopyAt | include/threepp/core/BufferAttribute.hpp:41-52 | the `itemSize` slots of item `index1` become the source's scalars from slot `index2*source.itemSize` on, read before the call, even when the source is the same attribute; every other slot keeps its value |
| Attributes.AlignedItems | include/threepp/core/BufferAttribute.hpp:41-52 | two items of one attribute coincide or do not overlap, so a copy within one attribute never reads a slot it has already written |
| Attributes.BufferAttribute.CopyArray | include/threepp/core/BufferAttribute.hpp:54-59 | the contents become exactly the given array, whose length may differ from the old one |
| Attributes.BufferAttribute.CopyVector2sArray | include/threepp/core/BufferAttribute.hpp:77-90 | the first `2*|vectors|` slots hold the vectors' `float` components, each converted to the element type by `convert`, in order, and the rest of the array is unchanged |
| Attributes.BufferAttribute.CopyVector3sArray | include/threepp/core/BufferAttribute.hpp:92-106 | the first `3*|vectors|` slots hold the vectors' `float` components, each converted to the element type by `convert`, in order, and the rest of the array is unchanged |
| Attributes.BufferAttribute.CopyVector4sArray | include/threepp/core/BufferAttribute.hpp:108-123 | the first `4*|vectors|` slots hold the vectors' `float` components, each converted to the element type by `convert`, in order, and the rest of the array is unchanged |
| Attributes.Vector2sLaidOut | include/threepp/core/BufferAttribute.hpp:77-90 | in that layout, `x` and `y` of vector `i` sit at slots `2i` and `2i+1`, each converted by `convert` |
| Attributes.Vector3sLaidOut | include/threepp/core/BufferAttribute.hpp:92-106 | in that layout, `x`, `y` and `z` of vector `i` sit at slots `3i` to `3i+2`, each converted by `convert` |
| Attributes.Vector4sLaidOut | include/threepp/core/BufferAttribute.hpp:108-123 | in that layout, `x`, `y`, `z` and `w` of vector `i` sit at slots `4i` to `4i+3`, each converted by `convert` |
| Attributes.TruncateToInt | include/threepp/core/BufferAttribute.hpp:77-123 | the implicit `float` to `int` conversion an `int` attribute applies to each component: it drops the fraction toward zero, so the result lies within 1 of the value, on the zero side |
| Layout.FlattenLength | include/threepp/core/BufferAttribute.hpp:77-123 | flattening `n` rows of width `w` gives `w*n` scalars |
| Layout.FlattenAt | include/threepp/core/BufferAttribute.hpp:77-123 | component `k` of row `i` lands at flat position `w*i + k` |
| Layout.SlotsDistinct | include/threepp/core/BufferAttribute.hpp:205-287 | slot `index*itemSize + k`, for `k < itemSize`, belongs to exactly one item and component, so writing one component of one item touches no other component of any item |
| Layout.Splice | include/threepp/core/BufferAttribute.hpp:253-287 | writing a run of values at a position changes exactly those slots, to those values, and keeps the length |
| Layout.SpliceUnique | include/threepp/core/BufferAttribute.hpp:253-287 | any array that matches the run on its slots and the old array elsewhere is that splice |
| Attributes.BufferAttribute.GetX | include/threepp/core/BufferAttribute.hpp:205-208 | `getX(i)` reads component 0 of item `i`, slot `i*itemSize` |
| Attributes.BufferAttribute.SetX | include/threepp/core/BufferAttribute.hpp:210-215 | only slot `i*itemSize` changes; `getX(i)` then returns the value written |
| Attributes.BufferAttribute.GetY | include/threepp/core/BufferAttribute.hpp:217-220 | `getY(i)` reads component 1 of item `i`, slot `i*itemSize + 1` |
| Attributes.BufferAttribute.SetY | include/threepp/core/BufferAttribute.hpp:222-227 | only slot `i*itemSize + 1` changes; `getY(i)` then returns the value written |
| Attributes.BufferAttribute.GetZ | include/threepp/core/BufferAttribute.hpp:229-232 | `getZ(i)` reads component 2 of item `i`, slot `i*itemSize + 2` |
| Attributes.BufferAttribute.SetZ | include/threepp/core/BufferAttribute.hpp:234-239 | only slot `i*itemSize + 2` changes; `getZ(i)` then returns the value written |
| Attributes.BufferAttribute.GetW | include/threepp/core/BufferAttribute.hpp:241-244 | `getW(i)` reads component 3 of item `i`, slot `i*itemSize + 3` |
| Attributes.BufferAttribute.SetW | include/threepp/core/BufferAttribute.hpp:246-251 | only slot `i*itemSize + 3` changes; `getW(i)` then returns the value written |
| Attributes.BufferAttribute.SetXY | include/threepp/core/BufferAttribute.hpp:253-262 | exactly slots `i*itemSize` and `i*itemSize + 1` change, to `x` and `y`; `getX`/`getY` then return them |
| Attributes.BufferAttribute.SetXYZ | include/threepp/core/BufferAttribute.hpp:264-274 | exactly slots `i*itemSize` to `i*itemSize + 2` change, to `x, y, z`; the three getters then return them |
| Attributes.BufferAttribute.SetXYZW | include/threepp/core/BufferAttribute.hpp:276-287 | exactly slots `i*itemSize` to `i*itemSize + 3` change, to `x, y, z, w`; the four getters then return them |
| GL.GLType | src/threepp/renderers/gl/GLAttributes.hpp:31-45 | int arrays are recorded as GL_UNSIGNED_INT and float arrays as GL_FLOAT, and each type belongs to exactly one kind |
| GL.RangeUpload | src/threepp/renderers/gl/GLAttributes.hpp:57-90 | with `count == -1` the whole array goes to byte 0; otherwise elements `offset .. offset+count` go to byte `offset*bytesPerElement`; the size argument is the element count |
| GL.SubData | src/threepp/renderers/gl/GLAttributes.hpp:57-90 | `updateBuffer` issues a `glBufferSubData` on the given target at byte `start*bytesPerElement`, where `start` is 0 for the whole array and `offset` otherwise; its size argument is the number of elements sent, and the elements sent are exactly the array's run from `start` |
| GL.RangeAfterUpload | src/threepp/renderers/gl/GLAttributes.hpp:91 | a consumed range has `count == -1` and keeps its offset |
| GL.GLAttributes.constructor | src/threepp/renderers/gl/GLAttributes.hpp:128 | the cache starts empty and no driver call has been made |
| GL.GLAttributes.CreateBuffer | src/threepp/renderers/gl/GLAttributes.hpp:23-49 | a new buffer name is taken; the log gains create, bind and `glBufferData` with the whole array, its element count and the attribute's usage; the entry records the GL type, 4 bytes per element and the attribute's version |
| GL.GLAttributes.UpdateBuffer | src/threepp/renderers/gl/GLAttributes.hpp:51-94 | the log gains a bind of the given buffer and the range upload; a partial range is consumed and a full one left alone; the array, version and usage are unchanged |
| GL.GLAttributes.Get | src/threepp/renderers/gl/GLAttributes.hpp:96-99 | there is an entry exactly when the attribute is cached, and it is that attribute's entry; a missing key, where `at` throws, gives `None` |
| GL.GLAttributes.Remove | src/threepp/renderers/gl/GLAttributes.hpp:101-110 | as written: a cached attribute's GL buffer is deleted and the entry stays; an uncached attribute causes no driver call |
| GL.GLAttributes.Evict | src/threepp/renderers/gl/GLAttributes.hpp:101-110 | as intended: the GL buffer is deleted and the entry erased; every other entry and the cache invariant are kept |
| GL.GLAttributes.Update | src/threepp/renderers/gl/GLAttributes.hpp:112-125 | first call: a new entry under a fresh name, with create, bind and full-array data in the log. Later calls: same name, the entry's version plus one (mod 2^32), bind and range upload in the log, with no version comparison. Other entries, the array, version and usage are untouched, and distinct attributes keep distinct buffer names |
| GLScenarios.PartialUpload | src/threepp/renderers/gl/GLAttributes.hpp:112-125 | four 3-float items: the first update sends all 12 elements; after `setX(1, 9)` and range {3, 3}, the next update sends elements 3..5 at byte 12 and consumes the range; the whole log is the `createBuffer` calls, a bind and that upload |
| GLScenarios.PartialUploadRejected | src/threepp/renderers/gl/GLAttributes.hpp:112-125 | the log of the partial-upload scenario, replayed by the driver, ends in error |
| GLScenarios.RepeatedUpdate | src/threepp/renderers/gl/GLAttributes.hpp:118-124 | a second update with no change in between uploads the whole array again, and the entry's version (1) passes the attribute's (0) |
| GLScenarios.RemoveKeepsEntry | src/threepp/renderers/gl/GLAttributes.hpp:101-110 | after `remove` the entry is still cached, and the next update asks to bind the deleted buffer name |
| GLScenarios.CachedIntPair | src/threepp/renderers/gl/GLAttributes.hpp:112-125 | two attributes updated in turn get buffers 1 and 2; the log is the two `createBuffer` call triples |
| GLScenarios.StaleUpdateOverwrites | src/threepp/renderers/gl/GLAttributes.hpp:101-125 | cache A, cache B, `remove(A)`, `update(A)`: the log ends with the delete, the rejected rebind of 1 and A's sub-upload; replayed, the driver is in error and B's store 2 starts with A's first byte, no longer holding B's bytes |
| GLScenarios.EvictForgetsEntry | src/threepp/renderers/gl/GLAttributes.hpp:101-110 | after eviction the entry is gone, and the next update creates a buffer under a new name |
| GLDriver.ByteOf | src/threepp/renderers/gl/GLAttributes.hpp:36-87 | the bytes of an array of 4-byte elements: byte `k` of element `i` is byte `4i + k` |
| GLDriver.BytesAppend | src/threepp/renderers/gl/GLAttributes.hpp:36-87 | the bytes of two arrays one after the other are the bytes of their concatenation |
| GLDriver.BytesPrefix | src/threepp/renderers/gl/GLAttributes.hpp:36-42 | the first `4k` bytes of an array are the bytes of its first `k` elements |
| GLDriver.BytesSplice | src/threepp/renderers/gl/GLAttributes.hpp:79-87 | writing the bytes of a run of elements at byte `4*start` is writing the run at element `start` |
| GLDriver.BoundStore | src/threepp/renderers/gl/GLAttributes.hpp:29-36 | the store a data call on a target goes to: the live buffer bound to that target, if any |
| GLDriver.Step | src/threepp/renderers/gl/GLAttributes.hpp:28-107 | a rejected call only raises the error flag; `glBufferData` makes the bound store exactly `size` bytes long; `glBufferSubData` keeps every byte outside `[offset, offset+size)` and the store's length |
| GLDriver.SubDataStep | src/threepp/renderers/gl/GLAttributes.hpp:63-87 | an accepted `glBufferSubData` writes the first `size` bytes of its data at its byte offset in the bound store and changes nothing else |
| GLDriver.ReplayAppend | src/threepp/renderers/gl/GLAttributes.hpp:112-125 | replaying a log in two parts is replaying it whole, so the calls of successive `update`s can be replayed one `update` at a time |
| GLDriver.AsWrittenCreate | src/threepp/renderers/gl/GLAttributes.hpp:23-49 | `createBuffer` as written under a fresh name: the name becomes a buffer bound to `GL_ARRAY_BUFFER` holding the first `n` bytes of the array; other stores and the error flag are unchanged |
| GLDriver.StaleTail | src/threepp/renderers/gl/GLAttributes.hpp:101-125 | deleting buffer 1 while 2 is bound, then binding 1 and sub-uploading: the bind is rejected, 1 is gone, and the upload's bytes land at the start of store 2 |
| GLDriver.AsWrittenStaleUpdate | src/threepp/renderers/gl/GLAttributes.hpp:101-125 | two attributes cached as buffers 1 and 2, then `remove` and `update` of the first: the driver is in error, buffer 1 is gone, and store 2 begins with the first attribute's first byte, so it no longer holds the second's bytes when their first elements differ |
| GLDriver.AsWrittenDataTruncates | src/threepp/renderers/gl/GLAttributes.hpp:36-42 | as written, `glBufferData` with the element count `n` as size leaves an `n`-byte store holding the first `n/4` whole elements, which differs from the array whenever it is not empty |
| GLDriver.ByteSizedDataFillsStore | src/threepp/renderers/gl/GLAttributes.hpp:36-42 | with the size `4n`, the bound store holds exactly the array's bytes, and no binding or other store changes |
| GLDriver.RunUploadShort | src/threepp/renderers/gl/GLAttributes.hpp:63-87 | a sub-upload sized in elements over a store of the array's length writes only the first `size` bytes of the range and leaves the other three quarters |
| GLDriver.AsWrittenSubDataStale | src/threepp/renderers/gl/GLAttributes.hpp:63-87 | as written, `updateBuffer` over a store of the array's full byte length holding an older image writes the right bytes at the right offset for only a quarter of the range; the rest of the range keeps the older image |
| GLDriver.AsWrittenFullUploadStale | src/threepp/renderers/gl/GLAttributes.hpp:63-69 | four floats over a correctly sized 16-byte store of zeros: after the whole-array upload as written, element 1 still reads zero and the store is not the array's bytes |
| GLDriver.AsWrittenPartialRejected | src/threepp/renderers/gl/GLAttributes.hpp:36-87 | after `createBuffer` as written, a partial upload whose byte range ends past `n` is rejected and no store changes |
| GLDriver.AsWrittenPositionsRejected | src/threepp/renderers/gl/GLAttributes.hpp:112-125 | the calls of `createBuffer` for 12 elements, a bind and an upload of 3 elements at byte 12 leave the driver in error |
| GLDriver.ByteSizedSubData | src/threepp/renderers/gl/GLAttributes.hpp:57-90 | the corrected `glBufferSubData`: same target, offset and elements as `updateBuffer` sends, with size `bytesPerElement` times the number of elements |
| GLDriver.RunRestores | src/threepp/renderers/gl/GLAttributes.hpp:79-87 | writing the array's own run over an image that already agrees with it elsewhere gives the array |
| GLDriver.RunUploadRestores | src/threepp/renderers/gl/GLAttributes.hpp:63-87 | a byte-sized upload of the array's run over a store that agrees with the array outside the run leaves exactly the array's bytes |
| GLDriver.ByteSizedSubDataRestores | src/threepp/renderers/gl/GLAttributes.hpp:51-94 | with byte sizes, a store that differs from the array only inside the update range (anywhere for `count == -1`) holds exactly the array's bytes after the upload, and no binding or other store changes |
| Events.EventDispatcher.constructor | include/threepp/core/EventDispatcher.hpp:60 | a new dispatcher has no entries |
| Events.Added | include/threepp/core/EventDispatcher.hpp:25-27 | adding appends the listener to the end of the type's list (duplicates allowed), creates the entry if missing, and leaves other types alone |
| Events.EventDispatcher.AddEventListener | include/threepp/core/EventDispatcher.hpp:25-27 | the table becomes `Added(old table, type, listener)` |
| Events.Find | include/threepp/core/EventDispatcher.hpp:34 | `std::find` returns the first position holding the listener, or the end exactly when the listener is absent |
| Events.EventDispatcher.HasEventListener | include/threepp/core/EventDispatcher.hpp:29-35 | false for a type with no entry, otherwise true exactly when the listener occurs in the type's list |
| Events.RemoveFirst | include/threepp/core/EventDispatcher.hpp:42-45 | a present listener shortens the list by one; an absent one leaves it unchanged |
| Events.RemoveFirstAt | include/threepp/core/EventDispatcher.hpp:42-45 | when position `i` holds the first occurrence, removal cuts out exactly that entry and keeps the others in order |
| Events.RemoveFirstMultiset | include/threepp/core/EventDispatcher.hpp:42-45 | removal takes out one copy of the listener and nothing else |
| Events.Removed | include/threepp/core/EventDispatcher.hpp:37-46 | only an existing entry for the type changes: no entry is created or erased, and other types are untouched |
| Events.EventDispatcher.RemoveEventListener | include/threepp/core/EventDispatcher.hpp:37-46 | the table becomes `Removed(old table, type, listener)`; no change for a missing type or an absent listener |
| Events.AddThenRemove | include/threepp/core/EventDispatcher.hpp:25-46 | adding a listener the list lacked and then removing it restores the list |
| Events.AddThenRemoveRestores | include/threepp/core/EventDispatcher.hpp:25-46 | on the whole table, add then remove of a new listener restores every list; the only trace is an empty entry for a type that had none |
| Events.RemoveLastOccurrence | include/threepp/core/EventDispatcher.hpp:29-46 | removing a listener registered once for a type leaves it unregistered for that type |
| Events.CallsFor | include/threepp/core/EventDispatcher.hpp:48-57 | dispatching over a list makes one call per entry, in list order, each with the event of that type |
| Events.EventDispatcher.DispatchEvent | include/threepp/core/EventDispatcher.hpp:48-57 | every listener in the snapshot of the type's list is called once, in registration order; a type with no entry calls nothing; the table is not changed |

## Left out

- `applyMatrix3`, `applyMatrix4`, `applyNormalMatrix` and `transformDirection` (BufferAttribute.hpp:125-203) are left out. They are floating-point matrix math done by Vector and Matrix classes that are not part of this model. The static scratch vectors at lines 300-301 go with them.
- `copyColorsArray` (BufferAttribute.hpp:61-75) is left out. It reads `colors.length` and `color.r` on a `std::vector<T>`, so it is not well-formed C++ as written.
- The `name` field and the `normalized` constructor argument are left out. Nothing in the modelled code reads them.
- Attributes.BufferAttribute.CopyAt: the model drops the `return &this` at line 52, which is not well-formed C++ as written. The model returns nothing.
- The setters return the attribute for chaining, and `setY`/`setZ` return a copy. The methods here return nothing, because no returned value changes the attribute's state.
- Attributes.BufferAttribute.SetX: `index * itemSize` is an `int` product. The model does not capture its 32-bit overflow and requires the slot to be inside the array. The same holds for the other getters and setters and for `CopyAt`'s `unsigned int` products. The C++ does no bounds check: an out-of-range index is undefined behaviour.
- Attributes.BufferAttribute.CopyVector2sArray: the model requires the array to hold every vector; the C++ writes past the end otherwise. The same holds for the 3- and 4-vector copies.
- Floats are Dafny `real`, so rounding is not modelled.
- Element types other than `int` and `float` are left out, because `AttributeRef` has only those two cases. For another element type the C++ still calls `glCreateBuffers` and `glBindBuffer` in `createBuffer` (lines 28-29) and returns `type` and `bytesPerElement` uninitialised (line 47). `updateBuffer` still binds the buffer (line 55) and still consumes a partial range (line 91) without uploading anything.
- The cache records the GL calls in `log`; `GLDriver` gives them meaning by replaying the log over byte stores. What the GPU does with usage hints is not modelled, nor is the rendering that reads the stores.
- GLDriver.Accepts: binding a name that is not a live buffer is rejected, as the core profile requires. A size larger than the client array makes the driver read past the array's end, which is undefined; the model rejects such a call.
- GL.GLAttributes.Update: the driver model hands out fresh names in increasing order and never reuses one. Real GL may hand out again a name freed by `glDeleteBuffers`. With `remove` as written, a stale entry can then share its buffer name with a newly cached attribute. So "distinct attributes keep distinct buffer names" holds only under the never-reuse assumption. Even without reuse, a stale `update` writes into another attribute's buffer (see Findings).
- GL.SizeOf: `sizeof(int)` and `sizeof(float)` are taken to be 4, here and in `GLDriver`. The model does not capture platforms where they differ.
- GL.GLAttributes.UpdateBuffer: the model requires a partial update range to lie inside the array. The C++ builds the sub-vector from iterators without a check, which is undefined behaviour outside the array.
- GL.GLAttributes.Get: it returns the entry by value, inside an `Option`. The C++ returns a reference into the map and throws `std::out_of_range` for a missing key.
- Events: listener bodies (`std::function`) and the `std::any` target are not modelled. Dispatch records the calls instead of running them, so a listener that edits the dispatcher during dispatch is not modelled. The snapshot makes the called list independent of such edits.
- Concurrency is out of scope: none of these classes is thread-safe, and nothing here models parallel calls.

## Findings

| source | as written | input that shows it | evidently intended | confidence | as-written member | corrected member |
|---|---|---|---|---|---|---|
| include/threepp/core/BufferAttribute.hpp:23 | `count` is computed from `array.size()` after `array_` was move-constructed from `array`. Members are initialised in declaration order, so the count is 0 | `BufferAttribute<float>({0,0,0,1,1,1}, 3)` gets `count == 0` | `count == array.size() / itemSize`, here 2 | not executed | Attributes.CountAsWrittenMissesItems | Attributes.ItemCount |
| src/threepp/renderers/gl/GLAttributes.hpp:101-110 | `remove` deletes the GL buffer but never erases the map entry | `update(a)`, `update(b)`, `remove(a)`, `update(a)`: the last update asks to bind the deleted name 1, which the driver rejects, so `GL_ARRAY_BUFFER` stays bound to b's buffer 2 and a's elements overwrite the start of b's store (`GLDriver.AsWrittenStaleUpdate`, `GLScenarios.StaleUpdateOverwrites`) | the entry is erased, so the next `update` creates a new buffer | not executed | GLScenarios.RemoveKeepsEntry | GLScenarios.EvictForgetsEntry |
| src/threepp/renderers/gl/GLAttributes.hpp:36-42 | `glBufferData` gets `array.size()`, the element count, as its size, which GL reads as bytes | 12 floats: the store is 12 bytes long and holds only elements 0 to 2 | size `array.size() * sizeof(element)`, so the store holds the whole array | not executed | GLDriver.AsWrittenDataTruncates | GLDriver.ByteSizedDataFillsStore |
| src/threepp/renderers/gl/GLAttributes.hpp:63-87 | `glBufferSubData` gets `array.size()` or `sub.size()`, an element count, as its size, while the offset is in bytes | four floats over a correctly sized 16-byte store of zeros (as `createBuffer` would leave it if it passed byte sizes): element 1 still reads zero after the whole-array upload; 12 floats with range {3, 3}: 3 bytes at byte 12 fall past the 12-byte store and the call is rejected (`GLDriver.AsWrittenPartialRejected`, `GLDriver.AsWrittenPositionsRejected`) | size `count * bytesPerElement`, so the store holds the whole array again | not executed | GLDriver.AsWrittenSubDataStale | GLDriver.ByteSizedSubDataRestores |
