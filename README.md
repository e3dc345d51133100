# A verified model of the OpenFX test host's core

The host loads OpenFX image-effect plugins, hands them handles to its own
objects (property sets, parameter sets, parameters, clips, images,
effects) and drives them through actions. This project models the core of
its host side in Dafny and proves what that core promises:

- **Machine, Status, Names** — bytes, the C `int` and Rust `usize` with
  their wrap-around written out, OFX status codes, and the OFX names the
  host uses.
- **OfxStrings** — `OfxStr` (src/strings.rs): a UTF-8 byte string ending
  in NUL, checked at construction (`from_str` checks only the last byte;
  `from_ptr` stops at the first NUL); `as_str` and `to_cstring`.
- **Handles, Host** — a `HandleManager` per kind of object
  (src/handles.rs) as a class whose table maps each issued handle to its
  object's address. `Host.Store` is the state of all the host's objects
  at one moment, with each kind's table and the set of live addresses.
  Addresses are never reused, because a table keeps a weak reference to
  every allocation it has issued.
- **Properties** — `PropertySet` and its `get_all`, `get`, `get_type`,
  `get_rectd` lookups, with `set` as a method that changes the set in
  place.
- **Suites** — the property suite's typed setters and getters,
  `propGetDimension`, `paramDefine`, `paramGetHandle`, `clipDefine` and
  `clipGetHandle` (src/suite_impls.rs). Each takes the handle the plugin
  passes, the store before, and gives the store after, the status and
  the out-parameter.
- **Variadic, LegacyParams** — the C shims (src/variadic_functions.c,
  src/params.c). Each reads exactly as many trailing pointers as the
  probed count, into the fixed-size buffer, and dispatches to the Rust
  function of that arity. Those Rust functions are recorded calls whose
  status is an input.
- **Params, Geometry, Images, ClipLedger, Effects** — `ParamValue` and
  `from_descriptor`, rectangle and stride arithmetic, `Image::crop`
  (its offset and its update of the image's bounds and data pointer),
  image lookup by frame and time, the `CLIP_IMAGES` ledger as a class,
  and `create_param`, `create_clip`, the clip copy, `create_params` and
  `create_instance`.
- **Commands, PluginCommands, InstanceCommands, ParamCommands,
  Engine** — `CommandState` and its commands: `create_plugin`, `create`,
  `set_params`, `destroy_instance`, `unload_plugin` and
  `configure_message_suite_responses`. A plugin's entry point is an
  oracle: every action the host calls is appended to a trace, and the
  plugin's answer is a function of the calls made before and the new
  call. Each command is a function from the registry to the new registry
  and its result. `Engine.CommandState` is the class whose fields each
  command method updates in place, exactly as that function says.

The command lemmas prove:

- a command registers a plugin or an instance only after every check
  and every action it calls has succeeded, and the registration replaces
  any entry with the same name;
- `destroy_instance` and `unload_plugin` remove exactly the named entry,
  and only once its action has succeeded;
- a failed command leaves both registries as they were;
- `set_params` with the notify flag calls BeginInstanceChanged, one
  InstanceChanged per value in order, then EndInstanceChanged; without
  the flag it calls no action at all;
- in `set_params`, an unknown parameter name stops the command with an
  error and leaves the writes before it in place.

Three behaviours of the code that the model keeps:

- `set_params` writes the value it is given without checking it against
  the parameter's type.
- `unload_plugin` does not check whether instances of the plugin still
  exist.
- In `message`, a probed size of zero leaves the payload NULL. It is
  the same as a negative size.

## Model

| member | source | states |
|---|---|---|
| Machine.UsizeOfInt32 | src/suite_impls.rs:161 | `index as usize` keeps a non-negative index and sends a negative one past the end of the 64-bit range |
| Machine.Int32OfUsize | src/main.rs:767-771 | `as c_int` on a `usize` is the value itself when it fits, and otherwise agrees with it modulo 2^32 |
| Machine.WrapUsize | src/main.rs:377-380 | a wrapping `usize` result is the exact value when it fits, and congruent to it modulo 2^64 |
| Machine.WrapAddLeft | src/main.rs:413-415 | wrapping an intermediate address sum does not change the wrapped total, as `pointer::offset` then indexing relies on |
| Machine.WrapInt32 | src/main.rs:94-101 | a wrapping `i32` result is the exact value when it fits, and congruent to it modulo 2^32 |
| Wrappers.MapResult | src/main.rs:1157-1168 | mapping a fallible step over a sequence gives every value exactly when every step succeeds, and otherwise the first error |
| Names.DescriptorKeysDiffer | src/main.rs:297-309 | the name, type and default keys of a parameter descriptor are three different keys |
| Handles.AsArc | src/handles.rs:154-167 | "Bad handle" exactly when the handle was never issued, "deallocated" exactly when its object died, otherwise the object it was issued for |
| Handles.WithObject | src/handles.rs:184-191 | the callback's result on the resolved object, or the resolution error |
| Handles.HandleManager.constructor | src/handles.rs:126-130 | a new manager has issued no handles |
| Handles.HandleManager.GetHandle | src/handles.rs:133-137 | the handle is the object's address, and the table gains exactly that entry |
| Handles.ResolveIssued | src/handles.rs:133-167 | a freshly issued handle resolves to its object while it lives and reports a dead object afterwards |
| Handles.IssueIdempotent | src/handles.rs:133-137 | issuing twice gives the same table as once, the table gains at most the one handle, and it stays address-keyed |
| Handles.IssueKeepsOthers | src/handles.rs:133-167 | issuing a handle does not change how any earlier handle resolves |
| Properties.Str | src/main.rs:749-753 | the value of a string is a C string whose content is that string |
| Properties.OfRustStr | src/main.rs:743-747 | `CString::new(..).unwrap()` succeeds exactly when the text has no NUL, giving a well-formed C string |
| Properties.OfBool | src/main.rs:773-778 | true becomes the integer 1 and false the integer 0 |
| Properties.OfUsize | src/main.rs:767-771 | a `usize` becomes an integer value, equal to it when it fits in an `int` |
| Properties.AsInt | src/main.rs:828-836 | the integer of an Int value; a panic for every other variant |
| Properties.AsBool | src/main.rs:818-826 | an Int value is true exactly when it is non-zero; a panic for every other variant |
| Properties.AsDouble | src/main.rs:838-846 | the number of a Double value; a panic for every other variant |
| Properties.AsPointer | src/main.rs:848-856 | the address of a Pointer value; a panic for every other variant |
| Properties.AsCString | src/main.rs:808-816 | the C string of a String value; a panic for every other variant |
| Properties.AsRustString | src/main.rs:798-806 | the content of a String value when it is UTF-8; a panic otherwise |
| Properties.ConversionRoundTrips | src/main.rs:761-856 | each conversion out of a property value undoes the matching conversion in |
| Properties.GetAll | src/main.rs:967-975 | the key's whole sequence, or ErrUnknown exactly when the key is missing |
| Properties.Get | src/main.rs:977-984 | ErrUnknown exactly for a missing key, ErrBadIndex exactly for an index past the end, otherwise that slot |
| Properties.GetType | src/main.rs:986-994 | None when the slot is missing; otherwise the converted value, or the conversion's panic |
| Properties.GetRectD | src/main.rs:996-1017 | ErrUnknown for a missing key, ErrBadIndex unless there are exactly four values, a panic unless all four are doubles, otherwise the rectangle they form |
| Properties.Updated | src/main.rs:1019-1028 | after a set, the key exists, its length is the larger of the old length and index + 1, the slot holds the value, added slots are Unset, and every other key and slot is unchanged |
| Properties.GetAfterSet | src/main.rs:977-1028 | a get at the place just set gives back the value |
| Properties.GetAfterSetElsewhere | src/main.rs:977-1028 | a set leaves other keys and other existing slots reading as before; the slots it adds read as Unset, and those past it as ErrBadIndex |
| Properties.SetTwice | src/main.rs:1019-1028 | setting the same slot twice keeps only the second value |
| Properties.FromPairsKeys | src/main.rs:956-965 | the keys of a new property set are exactly the keys of its pairs |
| Properties.FromPairsLast | src/main.rs:956-965 | each key holds the values of its last pair |
| Properties.PropertySet.constructor | src/main.rs:956-965 | `PropertySet::new` inserts the pairs in order, so the set holds what inserting them first to last gives |
| Properties.PropertySet.Set | src/main.rs:1019-1028 | `set` changes the values exactly as `Updated` says and keeps the name |
| Properties.PropertySet.Insert | src/main.rs:417-420 | an insert replaces the key's whole sequence and nothing else |
| OfxStrings.LeadLength | src/strings.rs:41-53 | the length of the well-formed UTF-8 sequence a string starts with (0 when none): at most four bytes, all after the first continuation bytes |
| OfxStrings.LeadLengthOfAppend | src/strings.rs:41-53 | what follows a string never changes the length of its first sequence |
| OfxStrings.ValidUtf8Append | src/strings.rs:41-53 | two UTF-8 strings joined are UTF-8 |
| OfxStrings.ValidUtf8DropNul | src/strings.rs:33-39 | a UTF-8 string that ends in NUL is still UTF-8 without it |
| OfxStrings.AsciiIsUtf8 | src/strings.rs:19-20 | ASCII text, such as every OFX name, is UTF-8 |
| OfxStrings.NewCString | src/main.rs:743-747 | `CString::new` succeeds exactly when the content has no NUL, and then holds that content and one terminator |
| OfxStrings.OfxStr.AsStr | src/strings.rs:59-62 | `as_str` is the bytes without the terminator, and it is UTF-8 |
| OfxStrings.OfxStr.ToCString | src/strings.rs:69-72 | `to_cstring` copies the bytes unchecked, terminator included, so its content is `as_str` |
| OfxStrings.FromStr | src/strings.rs:31-39 | `from_str` succeeds exactly on a non-empty string ending in NUL and keeps its bytes; an empty string fails on the index, an unterminated one with the "null terminated" panic |
| OfxStrings.NulIndex | src/strings.rs:43-53 | the position of the first NUL, where `CStr::from_ptr` stops |
| OfxStrings.FromPtr | src/strings.rs:41-53 | `from_ptr` keeps the bytes up to and including the first NUL, and panics exactly when those before it are not UTF-8 |
| OfxStrings.ToCStringRoundTrip | src/strings.rs:55-72 | `from_cstring(to_cstring(s))` gives back `s` exactly when `s` has no NUL before its terminator |
| OfxStrings.NulIndexOfTerminated | src/strings.rs:43-53 | in a terminated string the first NUL is the terminator exactly when no NUL comes before it |
| OfxStrings.FromCStringOfNew | src/strings.rs:55-57 | a C string made by `CString::new(s)` converts to an OfxStr exactly when `s` is UTF-8, whose text is then `s` |
| OfxStrings.FromStrTest | src/strings.rs:85-90 | "test\0" converts, and its text is "test" |
| OfxStrings.FromStrUnterminatedTest | src/strings.rs:92-96 | "test" fails with the "null terminated" panic |
| OfxStrings.FromPtrNotUtf8Test | src/strings.rs:101-108 | [0xC3, 0x28, 0] fails with the UTF-8 panic |
| Geometry.Crop | src/main.rs:131-138 | `crop` covers exactly the pixels both rectangles cover, each edge taken from one of the two and the tighter of them |
| Geometry.Width | src/main.rs:94-97 | the width is `x2 - x1` when that is non-negative; an inverted rectangle gets a huge width from the sign-extending cast |
| Geometry.Height | src/main.rs:99-101 | the height is `y2 - y1` when that is non-negative; an inverted rectangle gets a huge height |
| Images.ImageStride | src/main.rs:1248-1252 | the stride is never below the width; with no row size it is the width, and with a larger row size it is the number of whole pixels that fit in a row |
| Images.ImagePairsDescribe | src/main.rs:352-384 | the property set of a new image holds its data pointer, its bounds as bounds and as region of definition, its row size of `stride * 16` bytes and the image type |
| Images.EmptyImage | src/main.rs:393-398 | `Image::empty` panics with "capacity overflow" exactly when the wrapped `stride * height` pixels would take more than `isize::MAX` bytes; otherwise its stride is at least the width and its buffer holds the wrapped `stride * height` zero pixels, at least `width * height` when the product does not wrap |
| Images.BufferLength | src/main.rs:396 | the `usize` product `stride * height` wraps modulo 2^64, and is the exact product, at least `width * height`, when it fits |
| Images.ZeroBuffer | src/main.rs:396 | the resized buffer holds exactly `n` zero pixels |
| Images.InvertedEmptyImage | src/main.rs:393-398 | an inverted rectangle's width and height of 2^64 - 1 multiply, wrapping, to a one-pixel buffer |
| Images.HugeEmptyImage | src/main.rs:393-398 | a square of side 2^31 - 1 needs more than `isize::MAX` bytes, so `resize` panics |
| Images.ClampedBounds | src/main.rs:403-409 | the requested bounds clamped to the image are its `crop` with the image's bounds |
| Images.IsizeOfUsize | src/main.rs:411 | `as isize` keeps values below 2^63 and makes larger ones negative |
| Images.CropOffsetAsWritten | src/main.rs:411-412 | the offset as written counts its rows in units of the image's width |
| Images.CropOffset | src/main.rs:400-415 | the offset of the clamped bounds' first pixel in a buffer whose rows are `stride` pixels apart |
| Images.CropKeepsPixelAddresses | src/main.rs:400-421 | with the stride-based offset and the unchanged row size, every pixel of the cropped bounds lies where it lay before the crop |
| Images.CropOffsetAsWrittenMisses | src/main.rs:411-412 | a 2x2 image with rows of 4 pixels, cropped to its second row, gets offset 2 as written where that row starts at offset 4 |
| Images.CropProperties | src/main.rs:417-421 | the cropped property set holds the clamped bounds and, in slot 0 of the data pointer, the address of their first pixel; every other key and slot is kept |
| Images.CropKeepsPixelPointers | src/main.rs:411-421 | read through the new data pointer and bounds with 64-bit wrapping arithmetic, every pixel of the cropped bounds is at the address it had before the crop |
| Images.CropOffsetsAgreeWithoutPadding | src/main.rs:411-412 | the two offsets agree when rows are exactly as wide as the image |
| Images.ImageAtFrame | src/main.rs:441-447 | a static image is there at every frame, a sequence has the images of its frames, and no image is never there |
| Images.FrameOfTime | src/main.rs:435 | `time as u32` rounds a non-negative time down and saturates at the largest frame number |
| Images.ImageAtTime | src/main.rs:433-439 | negative times have no image; other times take the image at their frame |
| ClipLedger.ClipImageAt | src/main.rs:493 | the image a clip has at a time is the one its images hold at that time, and its property set is a live property set |
| ClipLedger.Rename | src/main.rs:496 | renaming an image's property set changes only its name; every other object, the live set and the handle tables stay as they were |
| ClipLedger.ImageHandleAtTime | src/main.rs:488-502 | as written: with no image nothing changes and no handle is returned; otherwise the image's own property set is renamed and its own handle is issued and returned |
| ClipLedger.FreshImageHandleAtTime | src/main.rs:489-492 | as the comment intends: the handle returned is a new object that was not in the store before, a renamed copy of the image's properties, and it resolves to itself |
| ClipLedger.ImageHandleRepeats | src/main.rs:488-502 | as written, two calls at the same time return the same handle |
| ClipLedger.FreshImageHandlesDiffer | src/main.rs:489-492 | with a deep copy, two calls at the same time return different handles |
| ClipLedger.RemoveFirst | src/main.rs:509-510 | removing the first occurrence of a handle shortens the ledger by one when the handle is there, and leaves it unchanged otherwise |
| ClipLedger.RemoveFirstCount | src/main.rs:509-510 | removal takes out exactly one occurrence of the handle and nothing else |
| ClipLedger.RemoveFirstAt | src/main.rs:509-510 | removal takes out the entry at the first position holding the handle and keeps the order of the rest |
| ClipLedger.HandOutThenRelease | src/main.rs:498-514 | handing a handle out and releasing it leaves the ledger's contents as they were, and its exact order when the handle was not already there |
| ClipLedger.ImageLedger.constructor | src/main.rs:460 | the ledger starts empty |
| ClipLedger.ImageLedger.GetImageHandleAtTime | src/main.rs:488-502 | with the copy the comment asks for, exactly one entry, the returned handle of a new property set, is appended when there is an image, and none otherwise |
| ClipLedger.ImageLedger.ReleaseImageHandle | src/main.rs:504-514 | release succeeds exactly when the handle is in use and then removes its first entry; otherwise it panics and changes nothing |
| ClipLedger.ImageLedger.CheckForUnreleasedImages | src/main.rs:518-530 | passes exactly when no image handle is outstanding, and panics otherwise |
| Params.ParseType | src/main.rs:166-268 | a type string is recognised only as the type whose name it is |
| Params.ParseTypeName | src/main.rs:171-267 | every one of the sixteen type names is recognised as its own type |
| Params.ZeroValue | src/main.rs:171-267 | the value used when there is no default has the type asked for |
| Params.BoolAt | src/main.rs:172-174 | a boolean default slot that is absent (no default, or a default list too short) reads as false; a present slot reads as `From<PropertyValue> for bool`, panicking unless it is an Int |
| Params.IntAt | src/main.rs:177-179 | an integer default slot that is absent (no default, or a default list too short) reads as 0; a present slot reads as an Int, panicking otherwise |
| Params.DoubleAt | src/main.rs:187-189 | a double default slot that is absent (no default, or a default list too short) reads as 0.0; a present slot reads as a Double, panicking otherwise |
| Params.CStringAt | src/main.rs:182-184 | a string default slot that is absent (no default, or a default list too short) reads as the empty string; a present slot reads as a String, panicking otherwise |
| Params.DoubleValue | src/main.rs:186-262 | a value of a double-based type has that type and one component per slot, and is all zeros when there is no default |
| Params.IntValue | src/main.rs:176-234 | a value of an integer-based type has that type and one component per slot, and is all zeros when there is no default |
| Params.ValueOfType | src/main.rs:171-267 | the value built for a type has that type and its arity, and is the zero value when there is no default |
| Params.DescriptorType | src/main.rs:166-170 | reading the type panics when the type slot is missing, empty or not a string; a type read means the slot holds a string |
| Params.FromDescriptor | src/main.rs:164-270 | a value built from a descriptor has the type its type string names and the arity of that type; an unknown type string panics |
| Params.DescriptorTypeOfStr | src/main.rs:166-170 | a type slot holding a UTF-8 string without NUL reads back as that string |
| Params.FromDescriptorWithoutDefault | src/main.rs:164-308 | a descriptor made with a known type and no default yields the zero value of that type |
| Params.DoubleValueSlots | src/main.rs:186-262 | a double-based value is built exactly when every present slot it reads is a Double; each component is then its slot or 0.0 where the slot is missing, and any other slot panics |
| Params.IntValueSlots | src/main.rs:176-234 | an integer-based value is built exactly when every present slot it reads is an Int; each component is then its slot or 0 where the slot is missing, a Choice is the slot sign-extended to `usize`, and any other slot panics |
| Params.ValueOfTypeSlots | src/main.rs:171-267 | for every type, each component is `get_type(ParamPropDefault, j).unwrap_or(zero)`: built exactly when every present slot has the type's variant, each component its slot (a Boolean's integer read as 0 or 1) or the zero component where missing, and a wrong variant panics |
| Params.FromDescriptorDefaults | src/main.rs:164-268 | a descriptor whose type string names a known type yields the value its default slots determine, succeeding exactly when every present slot fits and panicking otherwise |
| Params.ShortDefaultReadsZero | src/main.rs:190-197 | a Double2D whose default list holds one double takes that double as its first component and 0.0 as its second |
| Machine.Int32OfUsizeOfInt32 | src/main.rs:175-179 | sign-extending an `i32` to `usize` and truncating it back with `as c_int` gives the original integer |
| Params.ValuelessTypes | src/main.rs:149-155 | exactly the group, page, parametric and push-button types carry no value, and every value has as many components as its type's arity |
| Host.EmptyStoreValid | src/handles.rs:213-215 | before anything is allocated, every handle manager is empty and the store is consistent |
| Host.Resolve | src/handles.rs:154-167 | through the manager of one kind, a handle resolves to its own address and an object of that kind; it is a bad handle exactly when that manager never issued it, and deallocated exactly when it was issued and its object has no owner |
| Host.KindSeparation | src/handles.rs:207-218 | each kind has its own manager, so a handle issued for one kind is a bad handle for every other kind |
| Host.ResolveStable | src/handles.rs:133-167 | once issued, a handle is never forgotten, and it resolves to the same object as long as that object is owned |
| Host.DeadStaysDead | src/handles.rs:161-163 | a handle whose object has died reports a deallocated object from then on |
| Host.Issue | src/handles.rs:220-227 | converting an object into a handle records its address in its kind's manager, changes no object, and the handle then resolves to the object while it is owned |
| Host.IssueKeepsOtherKinds | src/handles.rs:207-218 | issuing through one kind's manager changes neither the table nor any resolution of another kind |
| Host.IssueTwice | src/handles.rs:133-137 | converting the same object into a handle twice changes nothing the second time |
| Host.PanicOf | src/handles.rs:161-165 | both ways a handle fails to resolve are panics |
| Host.ObjectOf | src/handles.rs:184-191 | the object of a handle is returned exactly when the handle resolves, and it is an object of the kind asked for; otherwise a panic |
| Host.Add | src/handles.rs:96-100 | `into_object` puts the object at a new address, owned, without a handle, and changes no other object |
| Host.Replace | src/handles.rs:184-191 | a change in place through a lock changes only the object at that address, and no handle or owner |
| Host.Drop | src/handles.rs:118-163 | releasing the last owners removes those addresses from the owned set only; the objects and the handle tables stay |
| Host.NewPropertySet | src/main.rs:956-965 | a new property set with the given name and values at a fresh owned address, and nothing else changed |
| Host.SetProps | src/main.rs:1019-1028 | changing a property set's values in place keeps its name and touches no other object |
| Host.NewParamSet | src/main.rs:311-319 | a new parameter set owns a new empty property set named "paramSet" and has no descriptors and no parameters |
| Host.NewEffect | src/main.rs:578-636 | a new effect owns a new empty property set with the effect's name and a new empty parameter set, has no clips, and answers messages with yes and then no |
| Effects.DescriptorPairsDescribe | src/main.rs:298-304 | a new descriptor's properties are exactly its name and its type string |
| Effects.PushDescriptor | src/main.rs:306 | appending a descriptor changes only the parameter set, and keeps the store consistent |
| Effects.CreateParam | src/main.rs:297-308 | `create_param` adds exactly one new property set, named "param_" and the name, holding the name and the type; appends it to the descriptors; and issues and returns its handle. No other object changes |
| Effects.DescriptorSlots | src/main.rs:298-304 | a new descriptor holds the name and the type in their slots and has no default |
| Effects.DescriptorDescribes | src/main.rs:297-308 | a descriptor made by `create_param` with a UTF-8 name and a known type is read back as that name with the zero value of its type |
| Effects.DescribesWithoutDefault | src/main.rs:1160-1166 | any descriptor with a UTF-8 name, a known type and no default reads back as its name and the zero value of its type |
| Effects.DescribeOk | src/main.rs:1160-1166 | a descriptor whose name and value both read reads back as that pair |
| Effects.NameOfStr | src/main.rs:1163 | a name slot holding a UTF-8 string reads back as that string |
| Effects.ClipPairsDescribe | src/main.rs:596-612 | a new clip's properties are exactly the six defaults: float depth, RGBA components, frame rate 24, pixel aspect ratio 1, frame range 0 to 1, and connected |
| Effects.InsertClip | src/main.rs:592-618 | inserting a clip changes only the effect, whose clip of that name becomes the new one |
| Effects.ClipParts | src/main.rs:591-592 | the clip an effect holds under a name and its property set, which `clips.insert` deallocates when it replaces that entry; empty exactly when no clip has the name |
| Effects.CreateClipDrops | src/main.rs:591-620 | `create_clip` keeps its effect alive exactly when it was, and no part of the replaced clip survives |
| Effects.CreateClip | src/main.rs:591-620 | `create_clip` allocates a new property set named "clip_" and the name, holding the default clip properties, and a new clip with that name, no images and no region of definition. The clip replaces any clip of that name and is returned. The replaced clip and its property set are dropped, so their handles report deallocated objects. Nothing else changes |
| Effects.ClipPropsDiffer | src/main.rs:533-543 | a clip's property set is a different object from the clip |
| Effects.CropImage | src/main.rs:417-421 | `Image::crop` changes only the image's property set in the store: its name is kept and its values become the cropped ones |
| Effects.CopyClip | src/main.rs:533-543 | a clip's clone is a new clip with the same name, images (their `data` addresses included; see "## Left out") and region of definition, and a new copy of its property set; no existing object changes |
| Effects.CopyClipsFrom | src/main.rs:1152-1153 | copying clips in iteration order gives one new copy per name, in that order, and changes no existing object |
| Effects.CollectKeys | src/main.rs:1154-1167 | collecting pairs into a map keeps exactly the keys of the pairs |
| Effects.CollectValues | src/main.rs:1154-1167 | every value of the collected map is one of the pairs' values |
| Effects.CollectLast | src/main.rs:1154-1167 | a key repeated among the pairs maps to the value of its last pair |
| Effects.CopyClips | src/main.rs:1148-1155 | `copy_map` gives a map with the same names, each holding a new deep copy of the clip under that name, and changes no existing object |
| Effects.DescriptorName | src/main.rs:1163 | a descriptor's name reads exactly when its first name slot holds a UTF-8 string, and is that string; otherwise it panics |
| Effects.Describe | src/main.rs:1160-1166 | a descriptor reads exactly when both its name and its value read; the name is read first, so its panic comes first |
| Effects.MakeParam | src/main.rs:279-286 | a new parameter object holding the value and a new copy of the descriptor's properties |
| Effects.MakeParams | src/main.rs:1158-1166 | one new parameter object per descriptor, in order, each made from that descriptor |
| Effects.DescriptorSets | src/main.rs:1161 | the property sets the descriptors point at, one per descriptor, in order |
| Effects.BuildParams | src/main.rs:1157-1168 | the parameters, keyed by name, are new objects made from the descriptors; a later descriptor of a name wins |
| Effects.CreateParams | src/main.rs:1157-1168 | `create_params` succeeds exactly when every descriptor reads, and then builds the parameters from what was read; otherwise it fails with the first descriptor's panic |
| Effects.InstancePairsDescribe | src/main.rs:1172-1193 | a new instance's properties are exactly its context, the descriptor's file path, frame rate 24, pixel aspect ratio 1 and effect duration 1 |
| Effects.InstanceSets | src/main.rs:1172-1197 | the instance allocates a new property set named "instance" holding those properties, and a new empty unnamed one for its parameter set |
| Effects.InstanceParts | src/main.rs:1171-1197 | the instance first copies the descriptor's clips, then allocates its two property sets |
| Effects.AssembleInstance | src/main.rs:1196-1207 | the new parameter set shares the descriptor's descriptors; the new effect holds the new properties, parameters and clips and the default message responses |
| Effects.CreateInstance | src/main.rs:1170-1208 | `create_instance` panics when the context holds a NUL or the descriptor has no file path. Otherwise it succeeds exactly when every parameter descriptor reads, and then gives a new instance of the descriptor, leaving every existing object unchanged |
| Variadic.Callbacks.constructor | src/variadic_functions.c:9-21 | no call into the Rust side has been made yet |
| Variadic.Callbacks.Invoke | src/variadic_functions.c:34-49 | a call into the Rust side is recorded once and its answer returned |
| Variadic.ReadPointers | src/variadic_functions.c:30-32 | the `va_arg` loop stores the first `count` trailing pointers into the buffer, in order, and writes nothing else |
| Variadic.Pointers | src/variadic_functions.c:30-32 | the first `n` trailing arguments' pointers, in order |
| Variadic.GetValueShim | src/variadic_functions.c:23-75 | after the count probe, a count from 1 up is forwarded to the getter of that arity with the trailing pointers in order, and its status is returned; a count of 0 or less returns Failed and forwards nothing |
| Variadic.ParamGetValue | src/variadic_functions.c:23-50 | `paramGetValue` probes the count, then forwards up to four pointers to the getter of that arity; any other count returns Failed |
| Variadic.ParamGetValueAtTime | src/variadic_functions.c:52-75 | `paramGetValueAtTime` does the same with up to three pointers and does not pass the time on |
| Variadic.SetterCall | src/variadic_functions.c:80-93 | exactly the five settable type names select a setter, each the one for its type, with the first trailing argument of that type's C type |
| Variadic.SetValueShim | src/variadic_functions.c:77-96 | the type is asked for first; a settable type calls its setter once and returns OK; any other type returns Failed and calls no setter |
| Variadic.ParamSetValue | src/variadic_functions.c:77-96 | `paramSetValue` is the shared setter dispatch |
| Variadic.ParamSetValueAtTime | src/variadic_functions.c:98-117 | `paramSetValueAtTime` is the same dispatch and does not pass the time on |
| Variadic.Message | src/variadic_functions.c:119-146 | a positive formatted length gets a buffer of that length plus one, holding the text and its terminator; a length of 0 or less, or a failed allocation, passes NULL. `message_impl` is called exactly once, the buffer is freed after it, and its status is returned |
| LegacyParams.ParamGetValue | src/params.c:9-33 | the older `paramGetValue` forwards up to three pointers to the getter of that arity and returns Failed for any other count |
| LegacyParams.ParamGetValueAtTime | src/params.c:35-59 | the older `paramGetValueAtTime` does the same and does not pass the time on |
| Suites.CStrToStr | src/suite_impls.rs:180 | `CStr::from_ptr(..).to_str()` reads the bytes before the first NUL, and succeeds exactly when they are UTF-8 |
| Suites.CStrOfTerminated | src/suite_impls.rs:180 | a terminated string reads back as its content when it is UTF-8, and fails otherwise |
| Suites.SetProperty | src/suite_impls.rs:154-163 | `set_property` panics on a handle that does not resolve, or on a negative index, which `as usize` makes huge. Otherwise it returns OK, and the property set holds exactly the set's update |
| Suites.PropSetPointer | src/suite_impls.rs:165-172 | `propSetPointer` succeeds exactly as `set_property` does, storing the pointer |
| Suites.PropSetDouble | src/suite_impls.rs:187-194 | `propSetDouble` succeeds exactly as `set_property` does, storing the double |
| Suites.PropSetInt | src/suite_impls.rs:196-203 | `propSetInt` succeeds exactly as `set_property` does, storing the integer |
| Suites.PropSetString | src/suite_impls.rs:174-185 | a value that is not UTF-8 is refused with ErrUnknown before the handle is looked at, and nothing changes; a UTF-8 value is stored as its owned copy |
| Suites.TypedGet | src/suite_impls.rs:245-359 | a typed getter panics on a bad handle and changes nothing otherwise. It returns `get`'s error for a missing key or index, ErrUnknown for a slot of another variant, and OK with the slot's value for the right variant |
| Suites.PropGetPointer | src/suite_impls.rs:245-272 | OK with the stored pointer exactly when the slot exists and holds a pointer; ErrUnknown for a missing key or a wrong variant, ErrBadIndex for an index past the end |
| Suites.PropGetString | src/suite_impls.rs:274-301 | OK with the stored C string exactly when the slot exists and holds a string; the same error cases as the other getters |
| Suites.PropGetDouble | src/suite_impls.rs:303-330 | OK with the stored double exactly when the slot exists and holds a double; the same error cases |
| Suites.PropGetInt | src/suite_impls.rs:332-359 | OK with the stored integer exactly when the slot exists and holds an integer; the same error cases |
| Suites.PropGetDimension | src/suite_impls.rs:409-424 | OK exactly when the key exists, with its number of slots (padding included) truncated to `i32`; ErrUnknown for a missing key; nothing changes |
| Suites.SetThenGet | src/suite_impls.rs:154-163 | after a successful set, a get at the same key and index gives back the value |
| Suites.SetIntThenGetInt | src/suite_impls.rs:196-359 | `propSetInt` then `propGetInt` at the same place returns OK and the integer |
| Suites.SetDoubleThenGetDouble | src/suite_impls.rs:187-330 | `propSetDouble` then `propGetDouble` at the same place returns OK and the double |
| Suites.SetPointerThenGetPointer | src/suite_impls.rs:165-272 | `propSetPointer` then `propGetPointer` at the same place returns OK and the pointer |
| Suites.SetStringThenGetString | src/suite_impls.rs:174-301 | `propSetString` of a UTF-8 string then `propGetString` returns OK and a C string with that content |
| Suites.SetKeepsOtherSlots | src/suite_impls.rs:154-163 | a set changes only its own slot: every other slot of every property set reads as before, and padding slots read as Unset |
| Suites.SetThenDimension | src/suite_impls.rs:409-424 | after a set, the key's dimension is the larger of its old length and the index plus one |
| Suites.ParamDefine | src/suite_impls.rs:449-467 | `paramDefine` returns ErrUnknown and changes nothing unless both the type and the name are UTF-8. Otherwise it is `create_param` on the resolved parameter set, returning OK and the new descriptor's handle |
| Suites.ParamDefineAppends | src/suite_impls.rs:449-467 | a successful `paramDefine` appends exactly one new descriptor holding the name and the type, and leaves every other object as it was |
| Suites.DefinedParamDescribes | src/suite_impls.rs:449-467 | the descriptor `paramDefine` creates is later read as its name and the zero value of its type |
| Suites.ParamGetHandle | src/suite_impls.rs:470-491 | `paramGetHandle` returns OK exactly when the name is UTF-8 and names a parameter, and then issues the handles of the parameter and its property set. Otherwise it returns ErrUnknown and changes nothing; no object changes in either case |
| Suites.ClipDefine | src/suite_impls.rs:29-44 | `clipDefine` returns ErrUnknown and changes nothing unless the name is UTF-8. Otherwise it is `create_clip`, and it issues and returns the handle of the clip's property set |
| Suites.ClipDefineCreates | src/suite_impls.rs:29-44 | after `clipDefine`, the effect has a new clip of that name with no images, and the handle written out resolves to its property set, which holds the default clip properties |
| Suites.ClipRedefineDeallocates | src/suite_impls.rs:29-44 | a second `clipDefine` of the same name on the same effect succeeds, and then the property-set handle the first one returned points to a deallocated object, so `propGetInt` through it panics |
| Suites.ClipGetHandle | src/suite_impls.rs:47-68 | `clipGetHandle` returns OK exactly when the name is UTF-8 and names a clip, and then issues the handles of the clip and its property set. Otherwise it returns ErrUnknown; no object changes |
| Suites.DefineThenGetClip | src/suite_impls.rs:29-68 | after `clipDefine(name)`, `clipGetHandle(name)` finds the clip just defined and the same property-set handle |
| Commands.ContextName | src/main.rs:1440-1449 | each context's name is its OpenFX context constant, which holds no NUL |
| Commands.ContextNamesDiffer | src/main.rs:1440-1449 | different contexts have different names, so a supported-contexts check cannot confuse two of them |
| Commands.RanThroughEach | src/main.rs:683-685 | a run went through exactly when every call from its start was answered with a status that counts as success |
| Commands.RanThroughStep | src/main.rs:683-685 | one more successful call keeps a run going |
| Commands.StoppedAtLastStep | src/main.rs:684-688 | a failed call ends a successful run at that call |
| Commands.StoppedIsNotRanThrough | src/main.rs:684-688 | a run that stopped did not go through, so success and failure can be told apart from the calls alone |
| Commands.Run | src/main.rs:676-689 | calling actions in turn with `try_call_action` and `?` makes a prefix of the calls. There is no error exactly when all of them were made and each succeeded; otherwise the last call made is the one that failed, and the error names its action and status |
| Commands.RunOneCall | src/main.rs:676-689 | one `try_call_action` makes its call and fails exactly when the status does not count as success |
| Commands.RunGoesThrough | src/main.rs:676-689 | when the plugin answers every call with success, all the calls are made and there is no error |
| Commands.RegisteredKept | src/main.rs:1349-1353 | registered descriptors and instances stay effects while objects are only ever added |
| Commands.RegisterAfter | src/main.rs:1428-1436 | registering a plugin whose descriptor is an effect keeps every registration valid |
| Commands.InstanceAfter | src/main.rs:1518-1524 | registering an instance whose effect is an effect keeps every registration valid |
| PluginCommands.DescribedEffect | src/main.rs:1420-1423 | the descriptor given to Describe is a new, owned effect made by `ImageEffect::new` with the plugin's name, and its handle is issued |
| PluginCommands.CreatePluginStep | src/main.rs:1402-1438 | `create_plugin` never touches the instances. On success the bundle was found and the plugin is inserted under its name, replacing any earlier one; on failure the plugins are unchanged |
| PluginCommands.LoadSucceeded | src/main.rs:1413-1418 | a run that went through got past Load |
| PluginCommands.PluginStore | src/main.rs:1413-1437 | nothing is allocated when Load fails. After Load the descriptor is made; it is released if Describe fails, and a descriptor it replaces is released if Describe succeeds |
| PluginCommands.CreatePluginHealthy | src/main.rs:1402-1438 | `create_plugin` keeps the host objects consistent and every registration an effect, only adds objects, and leaves the instances unchanged |
| PluginCommands.CreatePluginOkIff | src/main.rs:1407-1437 | `create_plugin` succeeds exactly when the bundle and plugin were found and both actions it made, Load and Describe, succeeded |
| PluginCommands.CreatePluginRegisters | src/main.rs:1413-1436 | on success the plugin is inserted under its name, replacing any earlier one, with the bundle's path and the descriptor; it was inserted only after Load and then Describe on that descriptor |
| PluginCommands.CreatePluginDescriptor | src/main.rs:1420-1436 | a registered plugin's descriptor is a new, owned effect as `ImageEffect::new` builds it; a descriptor it replaced is released |
| PluginCommands.CreatePluginFailureKeeps | src/main.rs:1407-1426 | a failed `create_plugin` leaves the plugins as they were |
| PluginCommands.CreatePluginNotFound | src/main.rs:1407-1411 | when the bundle or the plugin is not found, nothing at all changes and no action is called |
| PluginCommands.CreatePluginStopped | src/main.rs:1413-1426 | a `create_plugin` that fails on an action stops at that action, whose status the error reports. If Load failed, nothing was allocated; if Describe failed, the descriptor made for it is released |
| PluginCommands.UnloadPluginHealthy | src/main.rs:2068-2078 | `unload_plugin` keeps the host objects consistent and every registration an effect, and leaves the instances unchanged |
| PluginCommands.UnloadPluginOkIff | src/main.rs:2068-2078 | `unload_plugin` succeeds exactly when the plugin is loaded and answers its one Unload call with success; then exactly that plugin is removed and its descriptor released |
| PluginCommands.UnloadPluginFailureKeeps | src/main.rs:2069-2075 | a failed `unload_plugin` leaves the plugins, the instances and the host objects as they were; when Unload failed, the error names it |
| InstanceCommands.FilterDescriptor | src/main.rs:1479-1490 | the filter descriptor is a new, owned effect with no clips and no parameter descriptors, whose properties hold exactly the bundle's path |
| InstanceCommands.ResponseStatuses | src/main.rs:2010-2019 | the configured responses are stored last-first, one status per response, each the status its response stands for |
| InstanceCommands.FilterInstance | src/main.rs:1479-1508 | `create` makes the filter descriptor and issues its handle, then makes a new instance of it; each is a new, owned effect |
| InstanceCommands.InstanceOfFilter | src/main.rs:1170-1208 | in the model, where the plugin's suite calls are not replayed, the instance of the filter has the default message responses and no clips. Its property set is named "instance" and holds the context and the bundle's path; its parameter set is empty |
| InstanceCommands.FilterInstanceCreated | src/main.rs:1170-1208 | in the model, where the plugin's suite calls are not replayed, `create_instance` applied to the filter gives exactly that instance and cannot panic: the filter has a file path and no parameters or clips, and the context has no NUL |
| InstanceCommands.CreateCheck | src/main.rs:1458-1484 | `create` fails before making any object or calling any action exactly when one of its checks fails, in order: the plugin is not loaded, the context or float pixels are not supported, or the bundle path is not UTF-8 or holds a NUL |
| InstanceCommands.CreateRun | src/main.rs:1479-1525 | the actions of `create` never touch the plugins. On success the instance is inserted under its name, replacing any earlier one; on failure the instances are unchanged |
| InstanceCommands.CreateStore | src/main.rs:1479-1517 | the filter is released whatever happens. The instance is made once DescribeInContext succeeds and released if CreateInstance then fails; an instance it replaces is released |
| InstanceCommands.CreateStoreLive | src/main.rs:1479-1525 | after the actions, the filter is never alive; the instance is alive only when it was created; a replaced instance is not alive |
| InstanceCommands.CreateStopOf | src/main.rs:1498-1515 | the run counts as created exactly when no action failed |
| InstanceCommands.CreateRunHealthy | src/main.rs:1479-1525 | the actions of `create` keep the host objects consistent and every registration an effect, and leave the plugins unchanged |
| InstanceCommands.CreateRunOkIff | src/main.rs:1498-1525 | once its checks pass, `create` succeeds exactly when it called DescribeInContext on the filter, with the context as in-argument, and then CreateInstance on the instance, and both succeeded |
| InstanceCommands.CreateRunLive | src/main.rs:1479-1525 | after `create` the filter is released. On success the new instance is alive and any instance it replaced is released; on failure the instance is not alive |
| InstanceCommands.CreateRunInstance | src/main.rs:1507-1525 | a successful `create` keeps the objects `create_instance` made |
| InstanceCommands.CreateRunStopped | src/main.rs:1498-1515 | a failed `create` stops at the first action the plugin refused, which the error names; DescribeInContext came first |
| InstanceCommands.CreateHealthy | src/main.rs:1451-1526 | `create` keeps the host objects consistent and every registration an effect, and leaves the plugins unchanged |
| InstanceCommands.DestroyInstanceHealthy | src/main.rs:2055-2066 | `destroy_instance` keeps the host objects consistent and every registration an effect, and leaves the plugins unchanged |
| InstanceCommands.DestroyInstanceOkIff | src/main.rs:2055-2066 | `destroy_instance` succeeds exactly when the instance and its plugin are found and DestroyInstance on the instance's effect succeeds; then exactly that instance is removed and its effect released |
| InstanceCommands.DestroyInstanceFailureKeeps | src/main.rs:2056-2063 | a failed `destroy_instance` leaves both registries and the host objects as they were; when DestroyInstance failed, the error names it |
| InstanceCommands.SetResponses | src/main.rs:2010 | setting an effect's responses changes only those responses |
| InstanceCommands.ConfigureSets | src/main.rs:2003-2021 | configuring fails only for an unknown instance, and then changes nothing. Otherwise the effect's responses become the configured ones, reversed; nothing else changes and no action is called |
| InstanceCommands.ConfigureHealthy | src/main.rs:2003-2021 | configuring keeps the host objects consistent and every registration an effect |
| ParamCommands.ChangeCalls | src/main.rs:1905-1925 | one InstanceChanged call per name written, in order, each with that name in its in-arguments |
| ParamCommands.ParamsOf | src/main.rs:622-624 | the parameters an effect's `get_param` looks up are all parameter objects |
| ParamCommands.WriteParam | src/main.rs:1903 | `param.lock().value = v` changes only that parameter's value and keeps its properties |
| ParamCommands.WriteParams | src/main.rs:1897-1903 | writing the values in turn keeps the host objects consistent and adds, removes or releases no object |
| ParamCommands.WriteParamsValues | src/main.rs:1897-1903 | after the writes each parameter holds the last value written to it, or its old value when none was; every other object is unchanged |
| ParamCommands.WriteParamsProperties | src/main.rs:1897-1903 | the writes keep every parameter's properties |
| ParamCommands.ParamStep | src/main.rs:1898-1925 | one turn of the loop succeeds exactly when the name is a parameter and, when notifying, the name converts and InstanceChanged succeeds. It then writes the value and makes that one call; an unknown name fails with NoSuchParam and changes nothing |
| ParamCommands.ParamLoop | src/main.rs:1897-1927 | the loop keeps the host objects consistent and calls no action when not notifying |
| ParamCommands.ParamLoopDone | src/main.rs:1897-1927 | a loop that goes through wrote every value, first to last, and, when notifying, made one successful InstanceChanged call per value, in order |
| ParamCommands.ParamLoopGoesThrough | src/main.rs:1897-1927 | conversely, the loop goes through when every name is a parameter and, when notifying, every name converts and each InstanceChanged succeeds |
| ParamCommands.ParamLoopStops | src/main.rs:1902-1925 | once the loop fails, the values after the failure change nothing |
| ParamCommands.ParamLoopUnknownName | src/main.rs:1898-1902 | an unknown name ends the loop with NoSuchParam; the earlier writes and notifications remain and nothing after it is written |
| ParamCommands.ChangeStore | src/main.rs:1889-1895 | the effect's handle is issued only when notifying, where the action calls convert the effect into a handle; without notification the handle tables are unchanged. No object and no owner changes |
| ParamCommands.InstanceParams | src/main.rs:1898-1901 | the parameters of a registered instance are parameter objects |
| ParamCommands.SetParamsRun | src/main.rs:1879-1938 | the body of `set_params` keeps the host objects consistent and calls no action when not notifying |
| ParamCommands.SetParamsRunDone | src/main.rs:1888-1936 | a body that goes through wrote every value in order and, when notifying, called BeginInstanceChanged, one InstanceChanged per value in order, then EndInstanceChanged, each successfully |
| ParamCommands.SetParamsRunGoesThrough | src/main.rs:1888-1936 | conversely, the body goes through when every name is a parameter, every name converts when notifying, and the plugin accepts each call |
| ParamCommands.SetParamsRunUnknownName | src/main.rs:1888-1902 | an unknown name stops the body with NoSuchParam after the earlier writes; no later value is written or notified and EndInstanceChanged is not called |
| ParamCommands.SetParamsHealthy | src/main.rs:1870-1939 | `set_params` never changes which plugins and instances are registered, keeps the host objects consistent, and only adds to them |
| ParamCommands.SetParamsQuiet | src/main.rs:1888-1929 | without the flag, `set_params` calls no action at all |
| ParamCommands.SetParamsSucceeds | src/main.rs:1870-1939 | a successful `set_params` found the instance and its plugin and wrote every value in order. With the flag it called BeginInstanceChanged, then one InstanceChanged per value in order, then EndInstanceChanged, and each succeeded |
| ParamCommands.SetParamsGoesThrough | src/main.rs:1870-1939 | conversely, `set_params` succeeds when the instance and its plugin exist, every name is a parameter, and with the flag every name converts and the plugin accepts each call |
| ParamCommands.SetParamsUnknownName | src/main.rs:1897-1902 | an unknown name makes `set_params` fail with NoSuchParam; the earlier writes remain and nothing after the name is written or notified |
| ParamCommands.CallAction | src/main.rs:676-689 | one `try_call_action` is exactly `Run` on that one call |
| ParamCommands.WriteValue | src/main.rs:1898-1925 | the loop body computes exactly one turn of the specified loop |
| ParamCommands.WriteValues | src/main.rs:1897-1927 | the `for` loop over the values computes exactly the specified loop, stopping at the first failure |
| ParamCommands.RunSetParams | src/main.rs:1879-1938 | the body of `set_params` computes exactly the specified run: Begin, the loop, End |
| Engine.CommandState.constructor | src/main.rs:2306-2310 | a new `CommandState` has no plugins and no instances, has made no calls, and keeps every registration valid |
| Engine.CommandState.CreatePlugin | src/main.rs:1402-1438 | `create_plugin` changes the fields exactly as `CreatePluginStep` says and keeps every registration valid |
| Engine.CommandState.Create | src/main.rs:1451-1526 | `create` changes the fields exactly as `CreateStep` says and keeps every registration valid |
| Engine.CommandState.SetParams | src/main.rs:1870-1939 | `set_params`, with its loop over the values, changes the fields exactly as `SetParamsStep` says and keeps every registration valid |
| Engine.CommandState.DestroyInstance | src/main.rs:2055-2066 | `destroy_instance` changes the fields exactly as `DestroyInstanceStep` says and keeps every registration valid |
| Engine.CommandState.UnloadPlugin | src/main.rs:2068-2078 | `unload_plugin` changes the fields exactly as `UnloadPluginStep` says and keeps every registration valid |
| Engine.CommandState.ConfigureMessageSuiteResponses | src/main.rs:2003-2021 | `configure_message_suite_responses` changes the fields exactly as `ConfigureStep` says and keeps every registration valid |

## Left out

- Bundle and plugin loading (`load_bundle`, `get_plugins`, plist and library paths) is file-system and dynamic-library I/O. `create_plugin` takes the loaded bundle, or the reason it failed, as an input.
- `Plugin::call_action` and `set_host` are calls into plugin code. They are the `respond` oracle over the trace of calls. Suite calls a plugin makes while it runs an action are not replayed into the store.
- An action's in-arguments are recorded as the property map they hold, not as a property-set object. The `set_params` in-arguments of BeginInstanceChanged are always built, as in the source, and are not released.
- `succeeded` is taken to accept OK and ReplyDefault. The status type's implementation is not part of this model.
- `f64` and `f32` are modelled as `real`, without NaN, infinities or rounding. The floating-point rectangle code is not modelled. The f64-to-u32 conversion of a time is modelled as a floor that saturates at the `u32` maximum (`Images.FrameOfTime`); its result for NaN and negative zero is not.
- `HashMap` iteration order is an input where the source iterates over one: the order of an effect's clips when they are copied (`clipOrder`).
- `Mutex`, `Arc`, `Weak` and `LazyLock` are a store of values with a live set. Locking and concurrency are not modelled, and neither is the threaded render path.
- PluginCommands.PluginStore, InstanceCommands.CreateStore: when a command releases an effect, it drops only the effect itself from the live set. This covers `destroy_instance` and `unload_plugin` (`InstanceCommands.DestroyInstanceStep`, `PluginCommands.UnloadPluginStep`); `create` when it releases the filter, a failed instance or a replaced one; and `create_plugin` when it releases a failed or replaced descriptor. The effect's property set, parameter set, parameters, clips and clip property sets stay live, though the source frees those that the effect alone owned once its last strong reference goes. The model does not count references, and an instance shares its descriptors' `Arc`s with the filter it was made from.
- InstanceCommands.InstanceOfFilter, InstanceCommands.FilterInstanceCreated: the filter's instance is built from the filter as `create` made it, because the clips and parameters the plugin defines with `clipDefine` and `paramDefine` during DescribeInContext are not replayed. In the source, the instance copies those clips and parameters, and `from_descriptor` can panic on them ("Unknown param type" for a type string `paramDefine` accepted, or a default of the wrong variant). For the same reason, a descriptor registered by `create_plugin` keeps the empty property map it was made with, so `create` on a plugin loaded by the model always stops at the supported-contexts check.
- ClipLedger.ImageLedger.ReleaseImageHandle: removes the ledger entry but does not drop from the live set the fresh property-set copy that `GetImageHandleAtTime` allocated for it. That copy has no other owner, so the source frees it here. The model does not count references.
- Effects.CopyClip: the cloned images keep the original's `data` address. The source's derived `Clone for Image` copies the pixels into a new buffer at a new address, while the image's property set, and so the data pointer it holds, stays shared. Nothing in the model reads the copy's `data`.
- Images.EmptyImage: arithmetic is release-mode, so `stride * height` wraps rather than panicking as a debug build does. An allocation that fits in `isize::MAX` bytes but that the allocator cannot satisfy aborts the source; that failure is not modelled.
- Suites.CStrToStr: `crate::cstr_to_string` and `Object::get()` are not part of this model. The model assumes that the first reads the bytes before the first NUL and fails unless they are UTF-8, and that the second locks the object, as `Object::lock` does.
- Effects.CreateClip: drops the replaced clip and its property set, but the property sets of that clip's images stay live. The image ledger may still hold one of them, and the model does not count references.
- The suite entries change the addressed object by returning a new store rather than in place. Two handles alias exactly when they are the same address, which the store keeps.
- Images.CropProperties: stores the stride-based offset, the corrected behaviour under "## Findings", not the width-based one the source stores.
- ClipLedger.ImageLedger.GetImageHandleAtTime: pushes a fresh copy of the image's property set, the corrected behaviour under "## Findings", not the shared `Arc` the source pushes.
- `release_image_handle` re-issues the handle of every entry it compares. Every entry has been issued already, so the tables do not change, and the model does not repeat the issue.
- `configure_message_suite_responses` stores the responses on the effect. How the message suite consumes them later is not modelled.
- `vsnprintf` formatting in `message` is an input length, and raw pointer writes through out-parameters are the values the entries return.
- `fetch_suite`, the suite entries that only panic with "Not implemented", EXR reading and writing, serialisation, JSON output and the command-line parser are not modelled: they hold no behaviour of the core.
- A C `assert` on the probed count, or a `va_arg` of the wrong type, is undefined behaviour or an abort in the source. So is `Variadic.Message` with a probed size of `INT_MAX`, where `size++` overflows a signed `int`. Each is a precondition here.

## Findings

| source | as written | input that shows it | evidently intended | confidence | as-written member | corrected member |
|---|---|---|---|---|---|---|
| src/main.rs:411-412 | `Image::crop` counts the rows of its data offset in units of the image's width | a 2x2 image whose rows are 4 pixels apart, cropped to its second row, gets offset 2 where that row starts at 4 | rows counted in units of the stride, so the cropped image's pixels stay where they were | not executed | Images.CropOffsetAsWrittenMisses | Images.CropKeepsPixelAddresses |
| src/main.rs:488-502 | `get_image_handle_at_time` clones the `Arc`, so it renames and hands out the image's own property set | two calls for the same clip and time return the same handle | a fresh copy of the property set on each call, so each call's handle is unique, as the source's comment says | not executed | ClipLedger.ImageHandleRepeats | ClipLedger.FreshImageHandlesDiffer |
