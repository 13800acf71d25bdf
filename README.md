# jobject: a verified model of the property-descriptor engine

jobject is a small C++ library of JavaScript-like dynamic objects. Every object
owns a table that maps property names to property descriptors. A descriptor
holds a value, the flags writable, enumerable and configurable, and an optional
getter and setter. Four subclasses add a payload and built-in members:

- `JString` holds a text and adds `concat`, `indexOf` and `lastIndexOf`;
- `JArray` holds a vector of values and adds `push`, `pop`, `shift`, `unshift`,
  `splice` and `slice`, plus index descriptors "0", "1", ...;
- `JFunction` holds a name and a callable and adds `call`;
- `JDate` holds a time point and adds `getTime` and `setTime`.

This project models that engine in Dafny and proves what it does.

## How the model is built

- **One class.** `JObjects.JObject` stands for the whole class hierarchy.
  - `kind` records which C++ class an object is.
  - The payload fields belong to the kind that uses them: `text` for JString,
    `elems` for JArray, `name` and `code` for JFunction, `seconds` for JDate.
  - `props` is the `properties_` table. The operations that change it are
    methods with `modifies` clauses.
- **Decision functions.** The methods are specified against pure functions.
  The properties of the engine are lemmas about those functions.
  - `Resolve` decides what a read returns.
  - `WriteStepOf`, `Written` and `SetterEffect` decide what a write does.
  - `Deleted` decides what a deletion does.
  - `EnumerableNames` gives the names enumeration reports.
  - `IndexTable` gives the index descriptors `updateLength` installs.
  - `ConcatText`, `IndexOfResult` and `LastIndexOfResult` give the JString
    members' results.
  - `SliceOf` and `SpliceOf` give the JArray members' results.
- **Accessors as data.** The engine's own getter and setter closures are a
  closed datatype, interpreted against the object that owns them:
  - `StringLength`, `ArrayLength`, `ElementGet(i)` and `FunctionName` are the
    getters;
  - `ArrayResize` and `ElementSet(i)` are the setters.
  - The synthesized built-in functions are `Bound(target, member)`.
  - Caller-supplied getters, setters and function bodies are opaque ids. Their
    results come from the environment `Env`.
- **What the model cannot see.** `Env` also carries:
  - the rendering of doubles (`std::to_string(double)`);
  - the calendar rendering of dates (`localtime` and `put_time`);
  - a bound on how deeply nested arrays are rendered. In C++ an array that
    contains itself recurses forever.
- **Integers.** Conversions are written out:
  - `static_cast<uint32_t>` of a size wraps modulo 2^32;
  - `static_cast<int32_t>` of a position wraps modulo 2^32 into the signed range;
  - the uint64/int64 conversions used by `getTime` and `setTime` are exact
    two's-complement round trips;
  - the timestamp division `t / 1000` truncates toward zero, as C++ does.
  - Sizes and positions are otherwise unbounded.
- **Termination of `call`.** A `call` member forwards to its target's `Call`.
  `callDepth` counts the functions behind it, which makes every forwarding
  chain finite.

The member names echo ECMAScript's property semantics (section 10.1 of
ECMA-262, ordinary objects). The code departs from them in the following
places, and the model follows the code:

- A stored name that has a getter reads through the getter, even when the
  descriptor is writable and a value was written to it later.
- `defineProperty` replaces even a non-configurable entry.
- `updateLength` only ever adds index names. After `pop`, `shift`, `Clear` or a
  shrink, the stale names stay. Their getter then yields Null and their setter
  does nothing.

## Model

| member | source | states |
|---|---|---|
| JObjects.GetValueType | src/JObject.h:301-331 | the tag's ordinal equals the position of the value's alternative in `ValueVariant`, so the mapping is one-to-one |
| JObjects.KindType | src/JObject.h:93-209 | each class's `getType` tag is a handle tag (ordinal 6 or more), and it is `Object` exactly for the plain object |
| JObjects.BuiltinMember | src/JObject.cpp:188-558 | a plain object answers no name itself; a string answers exactly "concat", "indexOf" and "lastIndexOf"; an array exactly "push", "pop", "shift", "unshift", "splice" and "slice"; a function exactly "call"; a date exactly "getTime" and "setTime"; the member found carries that name and is never `toString` |
| JObjects.IndexOfResult | src/JObject.cpp:201-210 | -1 without arguments; otherwise (for a text below 2^31 bytes) -1 exactly when the rendered first argument occurs nowhere, and any other result is a non-negative position of its first occurrence |
| JObjects.LastIndexOfResult | src/JObject.cpp:211-220 | -1 without arguments; otherwise (for a text below 2^31 bytes) -1 exactly when the rendered first argument occurs nowhere, and any other result is a non-negative position of its last occurrence |
| JObjects.SliceOf | src/JObject.cpp:411-436 | the elements between the clamped start and end (a negative bound counts from the end, non-int32 bounds take the defaults 0 and size), or none when start >= end |
| JObjects.SpliceOf | src/JObject.cpp:370-410 | no arguments: nothing removed; otherwise the removed run starts at the clamped start, its length is deleteCount clamped to [0, size - start] (all the rest when deleteCount is not an int32), and the rest is prefix, then the items, then suffix |
| JObjects.JObject.DefineProperty | src/JObject.cpp:22-25 | always succeeds and upserts the descriptor, even over a non-configurable entry |
| JObjects.JObject.DeleteProperty | src/JObject.cpp:27-36 | succeeds exactly when the name is stored and configurable; then only that name is removed, otherwise the table is unchanged |
| JObjects.JObject.GetPropertyNames | src/JObject.cpp:42-50 | each stored enumerable name exactly once, and nothing else |
| JObjects.JObject.GetProperty | src/JObject.cpp:52-76 | the read yields what `Resolve` decides: a fresh function bound to the receiver, the getter's result, the stored value, or Null |
| JObjects.JObject.GetIndex | src/JObject.cpp:108-114 | a read of an index is a read of its decimal name |
| JObjects.JObject.SetProperty | src/JObject.cpp:78-98 | fails exactly on a stored, setter-less, non-writable name; the new table is `Written` and the elements change only through a setter |
| JObjects.JObject.SetIndex | src/JObject.cpp:120-126 | a write of an index is a write of its decimal name |
| JObjects.JObject.RunSetter | src/JObject.cpp:244-268 | the "length" setter resizes for a uint32 and ignores anything else; an index setter writes only while the index is in range; neither touches the table |
| JObjects.JObject.ToStringValue | src/JObject.cpp:67-73 | the `toString` member gives a fresh string holding the receiver's rendering |
| JObjects.JObject.CharAt | src/JObject.cpp:167-170 | the character at the index, or '\0' out of range |
| JObjects.JObject.FrontChar | src/JObject.cpp:172-174 | the character at index 0, or '\0' for the empty text |
| JObjects.JObject.BackChar | src/JObject.cpp:176-178 | the last character, or '\0' for the empty text |
| JObjects.JObject.SetValue | src/JObject.cpp:184-186 | the text becomes the given one |
| JObjects.JObject.ClearText | src/JObject.cpp:163-165 | the text becomes empty |
| JObjects.JObject.Concat | src/JObject.cpp:190-200 | a fresh string holding the text followed by each argument's rendering |
| JObjects.JObject.UpdateLength | src/JObject.cpp:257-271 | the table gains the index descriptors "0" .. "n-1" for the current size n, and nothing else changes |
| JObjects.JObject.ElementAt | src/JObject.cpp:286-289 | the element at the index, or Null out of range |
| JObjects.JObject.FrontElement | src/JObject.cpp:291-293 | the element at index 0, or Null for the empty array |
| JObjects.JObject.BackElement | src/JObject.cpp:295-297 | the last element, or Null for the empty array |
| JObjects.JObject.ClearElements | src/JObject.cpp:281-284 | no elements are left, and the table keeps every index name |
| JObjects.JObject.SetElement | src/JObject.cpp:303-309 | the array grows with Null up to the index, the index holds the value, other elements are kept, and the index names are added |
| JObjects.JObject.Push | src/JObject.cpp:322-335 | the arguments are appended in order, the index names are added, and the new size is returned as a uint32 |
| JObjects.JObject.Pop | src/JObject.cpp:336-347 | empty: Null and nothing changes; otherwise the last element is removed and returned |
| JObjects.JObject.Shift | src/JObject.cpp:348-359 | empty: Null and nothing changes; otherwise the first element is removed and returned |
| JObjects.JObject.Unshift | src/JObject.cpp:360-369 | the arguments are inserted at the front in order, and the new size is returned as a uint32 |
| JObjects.JObject.Splice | src/JObject.cpp:370-410 | the elements become `SpliceOf`'s rest; the result is a fresh array of the removed run, with no index descriptors |
| JObjects.JObject.SpliceBounds | src/JObject.cpp:376-388 | the start and count computed step by step are the ones `SpliceOf` specifies |
| JObjects.JObject.AppendRun | src/JObject.cpp:391-394 | the copy loop appends exactly the run `src[from..from + count]` |
| JObjects.JObject.Slice | src/JObject.cpp:411-436 | a fresh array of `SliceOf`, built with its index descriptors, and the receiver is unchanged |
| JObjects.JObject.SetName | src/JObject.cpp:476-478 | the function's name becomes the given one |
| JObjects.JObject.Call | src/JObject.cpp:465-470 | a call runs `Callee()`'s code: Null without a body; a caller-supplied body's result; for each synthesized member, its result and the target's new state, with the fields it does not touch unchanged, and `slice` and `splice` returning a fresh array without code |
| JObjects.JObject.Invoke | src/JObject.cpp:465-470 | a function that is not a `call` member gives Null without a body, a caller-supplied body's result, or each synthesized member's result and the target's new state; the array members change only the target's elements and table, `setTime` only its time |
| JObjects.JObject.RunArrayMember | src/JObject.cpp:320-410 | `push`, `unshift`, `pop`, `shift` and `splice` each give their result and the array's new elements and table, and leave the text, name and time alone |
| JObjects.JObject.RunReadMember | src/JObject.cpp:188-223 | `toString`, `concat`, `indexOf` and `lastIndexOf` (and `slice`, src/JObject.cpp:411-436, and `getTime`, src/JObject.cpp:533-539) give their results and change no existing object |
| JObjects.JObject.Callee | src/JObject.cpp:482-487 | following `call` members to their targets ends at a function that is not itself a `call` member, within the same footprint; a function that is not a `call` member is its own callee |
| JObjects.JObject.GetTime | src/JObject.cpp:515-518 | the time in milliseconds is a whole number of seconds |
| JObjects.JObject.SetTime | src/JObject.cpp:520-522 | the time becomes the timestamp truncated toward zero to whole seconds |
| JObjects.JObject.SetTimeFromArgs | src/JObject.cpp:540-555 | only a uint64 (read as int64) or int32 first argument sets the time; the result is the new time as a uint64; nothing but the time changes |
| JObjects.DefPropRw | src/JObject.h:228-239 | upserts a descriptor with the getter and setter and every flag true |
| JObjects.DefPropRo | src/JObject.h:242-252 | upserts a descriptor with the getter only, not writable, enumerable and configurable |
| JObjects.DefPropEx | src/JObject.h:255-266 | upserts a descriptor with the accessors and flags as given |
| JObjects.DefPropVal | src/JObject.h:269-282 | upserts a descriptor with the value and flags as given and no accessors |
| Numeric.ToUInt32 | src/JObject.cpp:146-148 | a size below 2^32 is kept as is |
| Numeric.ToInt32 | src/JObject.cpp:207 | a position below 2^31 is kept as is, and a negative result comes only from a position of 2^31 or more |
| Numeric.UInt64RoundTrip | src/JObject.cpp:545-546 | reading a uint64 as int64 and casting back gives the same uint64 |
| Numeric.Int64RoundTrip | src/JObject.cpp:536 | casting an int64 time to uint64 and back gives the same int64 |
| Numeric.Quot1000 | src/JObject.cpp:506-509 | the quotient truncates toward zero: it is within one second of the timestamp, on the side of zero |
| Numeric.ToDecimal | src/JObject.h:341-346 | `std::to_string` of a non-negative integer parses back to it; a negative one is "-" followed by the decimal of its magnitude (also the names at src/JObject.cpp:109 and 260) |
| Numeric.ToDecimalOfParse | src/JObject.cpp:260 | a canonical decimal name is the decimal name of the index it parses to |
| Numeric.DecimalZero | src/JObject.h:341-346 | an integer renders as "0" exactly when it is zero |
| Text.Find | src/JObject.cpp:206 | the first position where the needle occurs, or none exactly when it occurs nowhere |
| Text.RFind | src/JObject.cpp:216 | the last position where the needle occurs, or none exactly when it occurs nowhere |
| Text.EmptyNeedle | src/JObject.cpp:206-216 | the empty needle is found at 0 forwards and at the end backwards |
| Text.FindBeforeRFind | src/JObject.cpp:206-216 | the forward and backward searches both hit or both miss, and the first hit is no later than the last |
| Text.JoinAppend | src/JObject.cpp:311-318 | joining two non-empty runs of strings by commas is joining each, with a comma between |
| ListOps.Resize | src/JObject.cpp:247 | `vector::resize`: the new size, the old elements kept, and the new slots filled |
| ListOps.ResizeBack | src/JObject.cpp:247 | growing and then shrinking back restores the sequence |
| ListOps.ClampIndex | src/JObject.cpp:424-429 | a negative bound counts from the end, floored at 0, and every bound is capped at the size |
| TableLemmas.DefineThenResolve | src/JObject.cpp:22-25 | after a definition, a name the kind does not claim reads through the new getter, else as the new value |
| TableLemmas.BuiltinIgnoresTable | src/JObject.cpp:188-223 | a kind's built-in names are answered before the table, whatever it holds |
| TableLemmas.StoredPushIgnored | src/JObject.cpp:320-335 | a stored "push" on an array never changes what reading "push" returns |
| TableLemmas.ToStringFallback | src/JObject.cpp:56-73 | "toString" is synthesized exactly when it is not stored |
| TableLemmas.AbsentIffUnknown | src/JObject.cpp:56-76 | a read resolves to Absent (and so yields Null) exactly when the name is neither built in, stored, nor "toString" |
| TableLemmas.SetterIgnoresWritable | src/JObject.cpp:82-85 | a stored setter always runs and the write succeeds, whatever `writable` says, and the table is untouched |
| TableLemmas.StoredWriteIffWritable | src/JObject.cpp:86-90 | without a setter, a stored name is overwritten exactly when writable, and a refused write changes nothing |
| TableLemmas.ReadOnlyStaysPut | src/JObject.cpp:86-90 | a refused write leaves what a read returns unchanged |
| TableLemmas.InsertThenRead | src/JObject.cpp:92-97 | an unstored name gets a default descriptor, all flags true, that reads back as the value and is enumerated |
| TableLemmas.OverwriteThenRead | src/JObject.cpp:86-89 | an overwrite changes only the stored value: without a getter it reads back, with one the read is unchanged |
| TableLemmas.WriteKeepsOtherNames | src/JObject.cpp:78-98 | a write touches no other name |
| TableLemmas.NonConfigurableSurvivesDelete | src/JObject.cpp:27-36 | deleting a non-configurable name fails and it stays stored |
| TableLemmas.DeleteKeepsOtherNames | src/JObject.cpp:27-36 | deletion touches no other name |
| TableLemmas.DefineThenDelete | src/JObject.cpp:22-36 | a definition replaces any entry, and the name can then be deleted exactly when the new descriptor is configurable |
| TableLemmas.RwDescriptorAccess | src/JObject.h:228-239 | a `def_prop_rw` property runs its setter on writes, its getter on reads, and is enumerated |
| TableLemmas.RoDescriptorRefusesWrites | src/JObject.h:242-252 | a `def_prop_ro` property refuses every write, still reads through its getter, and can be deleted |
| TableLemmas.ValDescriptorAccess | src/JObject.h:269-282 | a `def_prop_val` property reads as its value, a write succeeds exactly when it is writable, and it is enumerated exactly when enumerable |
| TableLemmas.IndexTableSpec | src/JObject.cpp:257-271 | the index table holds exactly the canonical decimal names below the size, each with its own index accessor |
| TableLemmas.IndexNameStored | src/JObject.cpp:257-271 | the decimal name of every index below the size is stored with that index's accessor |
| TableLemmas.IndexTableNames | src/JObject.cpp:257-271 | the index names stored and enumerated are exactly the decimal names below the size |
| TableLemmas.LengthIsNoIndex | src/JObject.cpp:240-269 | "length" is never an index name, so `updateLength` never replaces the "length" accessor |
| TableLemmas.InitialEnumeration | src/JObject.cpp:144-153 | a fresh string or function enumerates nothing, and a fresh array enumerates its index names but not "length" |
| TableLemmas.InitialDeletion | src/JObject.cpp:451-463 | the "length" of strings and arrays cannot be deleted; a function's "name" and "length" can |
| TableLemmas.IndexNameNotBuiltin | src/JObject.cpp:320-439 | no index name is a built-in member name, "toString" or "length" |
| TableLemmas.ArrayTableAccess | src/JObject.cpp:238-271 | a fresh array reads and writes "length" and every index below the size through the constructor's accessors; an index beyond the size is inserted as a plain property |
| TableLemmas.FunctionTableAccess | src/JObject.cpp:451-463 | a fresh function's "name" reads through its getter, "length" reads 0, "call" is synthesized, and writes to "name" and "length" fail |
| TableLemmas.IndexTablePrefix | src/JObject.cpp:257-271 | the index table of a smaller size agrees with that of a larger one on every name it holds |
| TableLemmas.ShrinkKeepsTable | src/JObject.cpp:257-271 | `updateLength` after a shrink changes nothing: the stale index names stay |
| TableLemmas.ThreeWritesEnumerate | test/main.cpp:73-92 | writing "name", "age" and "active" into a fresh object enumerates exactly those three |
| ArrayLemmas.SliceWhole | src/JObject.cpp:414-415 | `slice()` copies the whole array |
| ArrayLemmas.SliceNegativeSuffix | src/JObject.cpp:424 | `slice(-k)` is the last k elements, or all of them when k exceeds the size |
| ArrayLemmas.SliceIgnoresOtherArgs | src/JObject.cpp:417-422 | bounds that are not int32 are ignored |
| ArrayLemmas.SpliceRemovesSlice | src/JObject.cpp:370-436 | what `splice(start, count)` removes is what `slice(start, start + count)` copies |
| ArrayLemmas.SpliceRestores | src/JObject.cpp:389-404 | putting the removed run back in place of the items restores the array |
| ArrayLemmas.SpliceSize | src/JObject.cpp:396-404 | the size after `splice` is the old size, less the removed run, plus the items |
| ArrayLemmas.SpliceTruncates | src/JObject.cpp:381-388 | with only a start, `splice` removes everything from there on |
| ArrayLemmas.SpliceInsertsOnly | src/JObject.cpp:380-404 | a deleteCount of zero inserts the items at the start and removes nothing |
| ArrayLemmas.LengthSetter | src/JObject.cpp:244-249 | the "length" setter resizes to a uint32 value, padding with Null, and ignores anything else |
| ArrayLemmas.LengthGrowShrink | src/JObject.cpp:244-249 | growing through "length" and shrinking back restores the elements |
| ArrayLemmas.IndexSetter | src/JObject.cpp:264-268 | an index setter overwrites in range and does nothing beyond the size |
| ArrayLemmas.FiveElementExamples | src/JObject.cpp:370-436 | on [1, 2, 3, 4, 5], `slice(-2)` is [4, 5] and `splice(1, 2, x)` removes [2, 3] and leaves [1, x, 4, 5] |
| ValueLemmas.EveryTypeOccurs | src/JObject.h:301-331 | every `ValueType` tag is the type of some value |
| ValueLemmas.SameTypeSameAlternative | src/JObject.h:301-331 | two values have the same type exactly when they are the same alternative |
| JObjects.IsNumber | src/JObject.h:365-373 | `isNumber` holds exactly for the int32, uint32, uint64 and double alternatives |
| JObjects.ToBoolean | src/JObject.h:398-421 | Null and null handles are falsy; a bool is itself; an integer is truthy exactly when its decimal is not "0"; a string exactly when its text is non-empty; any other non-null handle is truthy |
| JObjects.RenderAt | src/JObject.h:333-363 | Null and null handles render as "null", bools as "true"/"false", integers as decimals that parse back to them |
| JObjects.Render | src/JObject.h:333-363 | a non-null handle renders as its object's `toString`; a value that is no handle renders the same at any depth |
| JObjects.ObjectText | src/JObject.cpp:311-318 | an empty array, or one deeper than `Env.renderDepth`, gives ""; a string object gives its text (`JString::toString`, src/JObject.cpp:180-182) |
| JObjects.JoinRendered | src/JObject.cpp:311-318 | no elements give "", one element gives its rendering, and there is at least one character per separator |
| ValueLemmas.JoinRenderedIsJoin | src/JObject.cpp:311-318 | `JArray::toString` equals the comma join, folded from the front, of the elements' renderings |
| ValueLemmas.RenderingsAt | src/JObject.cpp:313-315 | entry i of the renderings joined is the rendering of element i |
| ValueLemmas.RenderingsAppend | src/JObject.cpp:313-315 | the renderings of a + b are those of a followed by those of b |
| ValueLemmas.JoinRenderedAppend | src/JObject.cpp:311-318 | the rendering of the elements of a + b is that of a, a comma, then that of b |
| ValueLemmas.IsNumberByType | src/JObject.h:365-373 | `isNumber` holds exactly for the int32, uint32, uint64 and double tags |
| ValueLemmas.IntegerTruthByRendering | src/JObject.h:398-421 | an integer is truthy exactly when it does not render as "0" |
| ValueLemmas.NullHandles | src/JObject.h:333-363 | a null handle renders as "null" and is falsy; a non-null handle other than a string is truthy |
| ValueLemmas.RenderString | src/JObject.h:349-350 | a non-null string handle renders as its text |
| ValueLemmas.StringTruthByRendering | src/JObject.h:414-415 | a string handle is truthy exactly when it renders as a non-empty text |
| ValueLemmas.RenderedArgsAppend | src/JObject.cpp:193-196 | the renderings appended for the arguments a + b are those for a followed by those for b |
| ValueLemmas.ConcatInSteps | src/JObject.cpp:190-200 | concatenating in two calls equals concatenating all the arguments in one |
| ValueLemmas.ConcatOne | src/JObject.cpp:193-196 | `concat` with one argument appends its rendering |
| ValueLemmas.IndexOfAppended | src/JObject.cpp:190-220 | searching for an argument just appended by `concat` finds it: `lastIndexOf` at the old end, `indexOf` there or earlier |
| ValueLemmas.IndexOfBeforeLastIndexOf | src/JObject.cpp:201-220 | `indexOf` and `lastIndexOf` both miss or both hit, the first no later than the last |
| ValueLemmas.EmptyNeedleSearch | src/JObject.cpp:201-220 | an argument rendering as "" is found at 0 by `indexOf` and at the end by `lastIndexOf` |
| ValueLemmas.HelloWorldSearch | src/JObject.cpp:201-210 | on "Hello World", `indexOf` of an argument rendering as "World" is 6, and of one rendering as "zzz" (which occurs nowhere) is -1 |
| Text.NoZzz | src/JObject.cpp:206-207 | `find` of a needle absent from the text, "zzz" in "Hello World", gives `npos`, which `indexOf` turns into -1 |
| Text.WorldAtSix | test/main.cpp:41-43 | "World" first occurs at 6 in "Hello World" |
| ValueLemmas.ArrayRendering | src/JObject.cpp:311-318 | [1, 2, 3] renders as "1,2,3" when `Env.renderDepth` is positive; at depth 0 it renders as "", where C++ would render its elements |
| ValueLemmas.ObjectByKind | src/JObject.cpp:128-130 | each class's `toString` and `getType`, and the "length" getters report `Size()`, with `Empty()` meaning size zero |
| ValueLemmas.KindTypeInjective | src/JObject.h:93 | distinct classes have distinct `getType` tags |
| Scenarios.ReadLength | src/JObject.cpp:240-243 | reading an array's "length" gives its size as a uint32 |
| Scenarios.PushThrough | src/JObject.cpp:322-335 | reading "push" and calling the result appends the arguments and returns the new size |
| Scenarios.PopThrough | src/JObject.cpp:336-347 | reading "pop" and calling the result removes and returns the last element |
| Scenarios.ArrayPushPop | test/main.cpp:47-68 | an empty array has length 0; after `push(1, 2, 3)` it is 3; `pop()` returns 3 and leaves [1, 2] of length 2 |
| Scenarios.ConcatThrough | src/JObject.cpp:190-200 | reading "concat" and calling the result gives a fresh string of the concatenation |
| Scenarios.IndexOfThrough | src/JObject.cpp:201-210 | reading "indexOf" and calling the result searches the text |
| Scenarios.HelloConcat | test/main.cpp:31-39 | "Hello World" has "length" 11, and `concat` with the string " - 测试" gives "Hello World" followed by its 9 bytes |
| Scenarios.HelloWorldIndexOf | src/JObject.cpp:201-210 | on "Hello World", `indexOf("World")` (the call test/main.cpp makes) is 6; a needle that occurs nowhere, "zzz", gives -1 |
| Scenarios.ToStringTwice | src/JObject.cpp:67-73 | each read of "toString" gives a new function, and both calls render the object the same way |
| Scenarios.ReadOnlyProperty | test/main.cpp:152-163 | a read-only, non-configurable value refuses writes and deletion and keeps reading the same |
| Scenarios.FunctionName | src/JObject.cpp:453-457 | a function's "name" reads its current name, also after `setName`, and that string's "length" is its size |
| Scenarios.CallThrough | src/JObject.cpp:480-488 | reading "call" and calling the result runs the function's body: Null without one, its result from `Env` otherwise |
| Scenarios.CallScenario | test/main.cpp:96-114 | `add.call(10, 20)` gives the body's result for those arguments, and a function without a body gives Null |
| Scenarios.SliceSpliceResults | src/JObject.cpp:370-436 | the arrays returned by `slice()` and `splice(0)` on [1, 2, 3] can be read: both have "length" 3 |
| Scenarios.GetTimeThrough | src/JObject.cpp:533-539 | reading "getTime" and calling the result gives the time in milliseconds as a uint64 |
| Scenarios.SetTimeThrough | src/JObject.cpp:540-555 | reading "setTime" and calling the result sets whole seconds and returns the new time |
| Scenarios.DateTimes | src/JObject.cpp:506-522 | 1234567 reads back as 1234000; -1500 keeps -1000, reported as the uint64 2^64 - 1000; a uint64 2^64 - 1 sets the time to 0; a bool argument is ignored |

The constructors `Plain`, `FromString`, `FromCString`, `FromValues`, `Sized`,
`Function`, `BuiltinFunction` and `FromTimestamp` model the C++ constructors
(src/JObject.cpp:13-20, 136-153, 230-255, 446-463, 506-513). Their contracts
state the initial tables `StringTable`, `ArrayTable` and `FunctionTable`, which
the lemmas above describe.

## Left out

- `JDate()` reads the system clock, and `JDate(time_point)` takes a time point
  that may hold fractions of a second. Neither is modelled. The model's dates
  keep whole seconds only, which is all that `JDate(int64)` and `setTime`
  produce.
- `JDate::toString` formats through `localtime` and `put_time`. It is the
  environment function `Env.formatDate`.
- Floating point is left out. `toNumber` is not modelled, and its only use is
  the sample function in the test program. A double is kept as its bit pattern,
  and `std::to_string(double)` is the environment function `Env.formatDouble`.
  `toBoolean` of a double is decided on the bit pattern: zero and NaN are false.
- Overflow of the clock's nanosecond count is not modelled. For timestamps far
  from the epoch, `getTime` is exact here.
- `Numeric.ToInt32`: `static_cast<int32_t>` of the size in `slice` and `splice`
  is not modelled; sizes there are treated as below 2^31. `indexOf` and
  `lastIndexOf` do wrap their result.
- The bodies of caller-supplied getters, setters and functions are opaque ids.
  A getter's or function's result comes from `Env`. A caller-supplied setter
  changes nothing the model can see.
- The `void* data` field is not modelled.
- Ownership is not modelled: `shared_ptr` reference counts, cycles and lifetimes.
  A synthesized function is bound to its receiver by reference, as the
  captured `this` is. Rendering an array expands at most `Env.renderDepth`
  levels, so an array that contains itself renders a finite text where C++
  does not terminate.
- `JObjects.RenderAt`: an acyclic array nested deeper than `Env.renderDepth`
  renders as "" here, where C++ renders its elements.
- Text is a sequence of chars, one char per byte of `std::string`. Non-ASCII
  text such as "测试" is given as its UTF-8 bytes, so "length", the `indexOf`
  and `lastIndexOf` positions and `CharAt` all count bytes.
- The `utils` definitions repeated in src/JObject.cpp:565-734 are identical to
  the header's. One copy is modelled.
- The `create*` factories are the constructors. `operator[](const char*)` and
  `operator[](string)` are `GetProperty`. `setPropertyValue(string)` is
  `SetProperty` with the result dropped. `JArray::operator[](size_t)` is
  `ElementAt`.
- `hasProperty`, `Size()`, `Empty()`, `getType()` and `toString()` are
  expressions of the state (`HasProperty`, `TextSize`, `TextEmpty`,
  `ElementCount`, `ElementsEmpty`, `GetType`, `ToString`). Their properties are
  stated by `ValueLemmas.ObjectByKind` and `Scenarios.ReadOnlyProperty`.
- The `DEF_PROP_EX` and `DEF_PROP_VAL` macros are not part of this model. They
  are read as calls to `utils::def_prop_ex` and `utils::def_prop_val`.
- Console output of the test programs is not modelled.
