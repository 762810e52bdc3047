# Descriptor builders, descriptor writer and keyboard input of a Vulkan/SDL3 renderer starter

This project models two small pieces of state logic of the renderer starter in Dafny and proves properties about them.

- **Descriptor layer** (`descriptors.dfy`, over the driver abstraction in `vulkan.dfy`). It has two builders. The layout builder keeps a map from binding index to binding record. The pool builder keeps a list of `(type, count)` pool sizes plus `max_sets` and `pool_flags`. The layout and the pool are the device objects these builders create. The descriptor writer stages descriptor writes typed by the layout's binding map. Its `build` allocates one set. Only when that allocation succeeds does it stamp the set into every pending write and submit all of them in one update.
- **Input manager** (`input.dfy`). It is a per-frame keyboard state machine. A key-down that is not a repeat, and a key-up, update the held-key map and append to the "pressed this frame" or "released this frame" list. `update` copies the held-key map into the previous-frame map and clears both lists. The two queries test membership in those lists.

The Vulkan driver is abstract. Handles are natural numbers, and 0 is `VK_NULL_HANDLE`. Every entry point the modelled operations call is appended to a ghost log, `Device.calls`, together with the arguments it was given. What the driver answers is an input of the call: the result code, and for a creation or allocation, the handle it writes back. `static_cast<uint32_t>` of a container size is reduced modulo 2^32 (`ToU32`). A scancode is a natural number. An `SDL_Event` is reduced to `KeyDown(scancode, repeat) | KeyUp(scancode) | Other`.

The input lemmas are stated over `Snapshot`, which holds the manager's four fields as a value, and `Step`/`EndFrame`/`ProcessAll`, which say what events and `update` do to it. `InputManager.ProcessEvent` and `InputManager.Update` are proved to follow `Step` and `EndFrame`.

Three behaviours of the code are worth stating outright:

- A failed `build` does not leave the caller's set untouched. The set is passed straight to the driver's allocation call as its out-parameter, so the model returns whatever handle the driver wrote, on failure too.
- A write to a binding missing from the layout is not rejected. The binding is looked up with `unordered_map::operator[]`, which inserts a value-initialised record (type 0, `VK_DESCRIPTOR_TYPE_SAMPLER`, count 0) into the layout object's own map, and the staged write takes type 0. The device-level layout created earlier does not get that binding. The model does exactly this (`InsertDefault`).
- Pool capacity counting is not in this code. It happens inside the driver, so here the allocation outcome is an input, and nothing says how many allocations a pool admits before failing.

## Model

| member | source | states |
|---|---|---|
| Vulkan.ToU32 | src/engine/vulkan/descriptors.cpp:31 | a container size cast to `uint32_t` equals the size whenever the size is below 2^32, and never exceeds it |
| Descriptors.DescriptorSetLayoutBuilder.AddBinding | src/engine/vulkan/descriptors.cpp:6-16 | the record `{binding, type, count, stages}` is stored at key `binding`; a re-added key is overwritten; every other key and its record are unchanged; the key set grows by at most `binding` |
| Descriptors.LastBindingWins | src/engine/vulkan/descriptors.cpp:6-16 | after any series of `add_binding` calls, a key is present iff it was present before or some call named it; it holds the record of the LAST call that named it; keys no call named keep their old record |
| Descriptors.DescriptorSetLayoutBuilder.Build | src/engine/vulkan/descriptors.cpp:18-20 | creates a fresh layout whose map equals the builder's map, on the same device; the builder is not changed; the device sees one layout creation holding one record per map entry |
| Descriptors.CollectBindings | src/engine/vulkan/descriptors.cpp:24-27 | walking the map in any order yields a list with exactly one record per map entry: the list has the map's size, and a duplicate-free key order maps each position to its record and covers every key |
| Descriptors.DescriptorSetLayout.constructor | src/engine/vulkan/descriptors.cpp:23-37 | keeps a copy of the map; the single device call made is a layout creation whose binding list enumerates the map and whose `bindingCount` is the map's size as `uint32_t`; the handle is the one the driver returned; a failed creation does not return |
| Descriptors.DescriptorPoolBuilder.AddPoolSize | src/engine/vulkan/descriptors.cpp:45-48 | `(type, count)` is appended at the end of the pool sizes; earlier entries, including those of the same type, are kept apart and unchanged; no other field changes |
| Descriptors.DescriptorPoolBuilder.SetPoolFlags | src/engine/vulkan/descriptors.cpp:50-53 | `pool_flags` becomes the given flags and nothing else may change |
| Descriptors.DescriptorPoolBuilder.SetMaxSets | src/engine/vulkan/descriptors.cpp:55-58 | `max_sets` becomes the given count and nothing else may change |
| Descriptors.DescriptorPoolBuilder.Build | src/engine/vulkan/descriptors.cpp:60-62 | creates a fresh pool on the builder's device from the builder's current `max_sets`, flags and pool sizes, in order |
| Descriptors.DescriptorPool.constructor | src/engine/vulkan/descriptors.cpp:65-78 | the single device call made is a pool creation with `poolSizeCount` = the number of entries as `uint32_t`, the entries in order, and the given `maxSets` and `flags`; a failed creation does not return |
| Descriptors.DescriptorPool.AllocateDescriptor | src/engine/vulkan/descriptors.cpp:84-95 | exactly one allocation request is made, from this pool, for one set of the given layout; the result is true iff the driver reports `VK_SUCCESS`; the set is what the driver wrote |
| Descriptors.DescriptorPool.FreeDescriptors | src/engine/vulkan/descriptors.cpp:97-99 | one free call is made on this pool with the given sets and their number |
| Descriptors.DescriptorPool.ResetPool | src/engine/vulkan/descriptors.cpp:101-103 | one reset call is made on this pool with flags 0 |
| Descriptors.InsertDefault | src/engine/vulkan/descriptors.cpp:109 | `operator[]` on the binding map: afterwards the key is present; every key already present keeps its record; an absent key gets the value-initialised record |
| Descriptors.DescriptorWriter.constructor | src/engine/vulkan/descriptors.cpp:106 | a writer starts with no pending writes, bound to the given layout and pool |
| Descriptors.DescriptorWriter.WriteToBuffer | src/engine/vulkan/descriptors.cpp:108-120 | exactly one write is appended after the earlier ones: null destination set, `dstBinding = binding`, count 1, the layout map's type for that binding, the given buffer info; the layout map gains the binding only if it was absent; staged writes keep agreeing with the layout map |
| Descriptors.DescriptorWriter.WriteImage | src/engine/vulkan/descriptors.cpp:122-134 | the same as `WriteToBuffer`, with the given image info |
| Descriptors.DescriptorWriter.Build | src/engine/vulkan/descriptors.cpp:136-143 | true iff allocation succeeded; on failure, only the allocation request reaches the device and the pending writes are unchanged; on success, the allocation is followed by one update that submits every pending write retargeted to the new set |
| Descriptors.DescriptorWriter.Overwrite | src/engine/vulkan/descriptors.cpp:145-150 | every pending write gets `dstSet = set` in place, with number, order and all other fields kept; then all of them are submitted in one update whose count is their number as `uint32_t` |
| Descriptors.RetargetAt | src/engine/vulkan/descriptors.cpp:146-148 | retargeting keeps the list's length, and its i-th write is the i-th pending write with only the destination set replaced |
| Descriptors.RetargetLastSetWins | src/engine/vulkan/descriptors.cpp:145-150 | overwriting with one set and then another leaves the writes exactly as a single overwrite with the second set would |
| Descriptors.RetargetIdempotent | src/engine/vulkan/descriptors.cpp:145-150 | repeating an overwrite with the same set leaves the pending list identical |
| Descriptors.RetargetAgrees | src/engine/vulkan/descriptors.cpp:145-148 | if every pending write names a slot of the layout map and carries that slot's type and count 1, this still holds after an overwrite |
| Input.Find | src/engine/input/inputmanager.cpp:21-27 | the `std::find` used by the queries gives the first index holding the key, or the length when no element is the key |
| Input.InputManager.constructor | src/engine/input/inputmanager.hpp:17-21 | a fresh manager has empty key maps and empty per-frame lists, so no key reports pressed or released |
| Input.InputManager.ProcessEvent | src/engine/input/inputmanager.cpp:5-13 | a non-repeat key-down sets the key held and appends it to the pressed list; a key-up sets it not held and appends it to the released list; the other list and `previous_keys` are unchanged; a repeat key-down or any other event changes nothing |
| Input.InputManager.Update | src/engine/input/inputmanager.cpp:15-19 | `previous_keys` becomes the held-key map; `current_keys` is unchanged; both lists are empty, so no key reports pressed or released |
| Input.InputManager.IsKeyPressed | src/engine/input/inputmanager.cpp:21-23 | true iff the key occurs in the pressed-this-frame list; as a function it cannot change any field |
| Input.InputManager.IsKeyReleased | src/engine/input/inputmanager.cpp:25-27 | true iff the key occurs in the released-this-frame list; as a function it cannot change any field |
| Input.PressedListIsDowns | src/engine/input/inputmanager.cpp:6-8 | over any run of events, the pressed list grows by exactly the scancodes of the non-repeat key-downs, in arrival order, duplicates kept |
| Input.ReleasedListIsUps | src/engine/input/inputmanager.cpp:9-11 | over any run of events, the released list grows by exactly the scancodes of the key-ups, in arrival order |
| Input.EventsKeepPreviousKeys | src/engine/input/inputmanager.cpp:5-13 | no run of events changes `previous_keys` |
| Input.UntouchedKeyKeepsEntry | src/engine/input/inputmanager.cpp:5-13 | a key that no non-repeat key-down and no key-up in the run names keeps its held-key entry, or stays absent |
| Input.HeldKeyFollowsLastTransition | src/engine/input/inputmanager.cpp:6-11 | after a run of events, a key is held iff the last non-repeat key-down or key-up naming it was a key-down |
| Input.QueriesReportThisFrame | src/engine/input/inputmanager.cpp:6-27 | in a frame that began with empty lists, a key is in the pressed list iff a non-repeat key-down for it arrived, and in the released list iff a key-up for it arrived |
| Input.TapReportsBoth | src/engine/input/inputmanager.cpp:8-11 | a key-down followed by a key-up within one frame leaves the key both pressed and released this frame, and no longer held |
| Input.PressedTwiceListedTwice | src/engine/input/inputmanager.hpp:20-21 | the per-frame lists are vectors: down, up, down in one fresh frame puts the key in the pressed list twice |

## Left out

- Fatal creation failures: when `vkCreateDescriptorSetLayout` or `vkCreateDescriptorPool` fails, the source logs and calls `exit`. The two constructors and the two builder `Build` methods therefore require a successful driver answer, because no execution continues past a failure. `spdlog` logging is not modelled.
- Destructors: `~DescriptorSetLayout` and `~DescriptorPool` (descriptors.cpp:40-42, 80-82) destroy the device objects. Dafny has no destructors, and object lifetime is not modelled.
- Driver-side semantics: pool capacity counting, reclaiming capacity on free and reset, the free-individual-sets flag check, and matching write types against the device layout all happen inside Vulkan. The driver's answer to every call is an input.
- Caller-owned pointers: `VkDescriptorBufferInfo*` and `VkDescriptorImageInfo*` are stored by the writer. They are modelled as opaque addresses. Their lifetime and contents are not modelled.
- The declarations file `descriptors.hpp` is not part of this model. The pool builder's initial `max_sets` and `pool_flags` are therefore constructor arguments, and `add_binding`'s default count is an ordinary argument. The layout builder is assumed to start with an empty binding map.
- `vkUpdateDescriptorSets` is always called with zero descriptor copies, so the log does not record copies. Writes always target array element 0, and their `pTexelBufferView` is always null. The layout bindings' `pImmutableSamplers` is always null. Neither pointer is represented.
- The field `previous_keys` is written by `update` but never read by any query of the source, so no property beyond its value is stated.
- SDL event fields other than the event type, scancode and repeat flag are not modelled. SDL's own event queue and polling are not modelled either.
- `src/engine/rendering/rendersystem.cpp` is not part of this model. It holds pipeline creation and draw recording through Vulkan and through the `Pipeline` and `Model` classes, which this model does not cover, and float matrix math.
- `src/app.cpp` is not part of this model. It holds the application loop, timing, window polling and float camera math.
- `src/engine/vulkan/buffer.hpp` is not part of this model. It only declares the buffer class, and the stride, offset and mapping logic is defined in `buffer.cpp`, which this model does not cover.
