/**
  The property-descriptor engine.

  `JObject` is the base object and its four variant kinds (string, array,
  function, date) in one class: `kind` says which C++ class an object is,
  and the payload fields belong to the kind that uses them (`text` to
  JString, `elems` to JArray, `name` and `code` to JFunction, `seconds` to
  JDate). Every object owns `props`, the name -> descriptor table.

  Getters, setters and callable bodies are closures in the source. Here they
  are closed datatypes interpreted against the object that owns them
  (`Getter`, `Setter`, `Closure`); caller-supplied ones are opaque ids whose
  results come from the environment `Env`.
 */
module JObjects {
  import opened Wrappers
  import opened Numeric
  import Text
  import ListOps

  // ---------------------------------------------------------------------
  // Values
  // ---------------------------------------------------------------------

  /** `ValueType`, one tag per alternative of `ValueVariant`, in the same order. */
  datatype ValueType =
    | NullType | BooleanType | Int32Type | UInt32Type | UInt64Type | DoubleType
    | StringType | ArrayType | ObjectType | FunctionType | DateType

  /**
    `ValueVariant`. A double is kept as its IEEE 754 bit pattern; the five
    handle alternatives hold a possibly null reference, as a `shared_ptr` may be
    null.
   */
  datatype Value =
    | NullV
    | BoolV(b: bool)
    | Int32V(i: int32)
    | UInt32V(u: uint32)
    | UInt64V(w: uint64)
    | DoubleV(bits: bv64)
    | StringV(h: JObject?)
    | ArrayV(h: JObject?)
    | ObjectV(h: JObject?)
    | FunctionV(h: JObject?)
    | DateV(h: JObject?)
  {
    predicate IsHandle() {
      StringV? || ArrayV? || ObjectV? || FunctionV? || DateV?
    }
  }

  /** Position of a value's alternative in `ValueVariant` (what `index()` reports). */
  function VariantIndex(v: Value): nat {
    match v
    case NullV => 0
    case BoolV(_) => 1
    case Int32V(_) => 2
    case UInt32V(_) => 3
    case UInt64V(_) => 4
    case DoubleV(_) => 5
    case StringV(_) => 6
    case ArrayV(_) => 7
    case ObjectV(_) => 8
    case FunctionV(_) => 9
    case DateV(_) => 10
  }

  /** The underlying value of a `ValueType` enumerator. */
  function TypeOrdinal(t: ValueType): nat {
    match t
    case NullType => 0
    case BooleanType => 1
    case Int32Type => 2
    case UInt32Type => 3
    case UInt64Type => 4
    case DoubleType => 5
    case StringType => 6
    case ArrayType => 7
    case ObjectType => 8
    case FunctionType => 9
    case DateType => 10
  }

  /** `utils::getValueType`: the tag of the active alternative. */
  function GetValueType(v: Value): (t: ValueType)
    ensures TypeOrdinal(t) == VariantIndex(v)
  {
    match v
    case NullV => NullType
    case BoolV(_) => BooleanType
    case Int32V(_) => Int32Type
    case UInt32V(_) => UInt32Type
    case UInt64V(_) => UInt64Type
    case DoubleV(_) => DoubleType
    case StringV(_) => StringType
    case ArrayV(_) => ArrayType
    case ObjectV(_) => ObjectType
    case FunctionV(_) => FunctionType
    case DateV(_) => DateType
  }

  /** `utils::isNumber`: the three integer alternatives and the double one. */
  function IsNumber(v: Value): (r: bool)
    ensures r <==> 2 <= VariantIndex(v) <= 5
  {
    v.Int32V? || v.UInt32V? || v.UInt64V? || v.DoubleV?
  }

  /** A double bit pattern is +0.0 or -0.0. */
  predicate IsZeroBits(bits: bv64) {
    bits & 0x7FFF_FFFF_FFFF_FFFF == 0
  }

  /** A double bit pattern is a NaN: all exponent bits set, non-zero fraction. */
  predicate IsNaNBits(bits: bv64) {
    bits & 0x7FF0_0000_0000_0000 == 0x7FF0_0000_0000_0000 && bits & 0x000F_FFFF_FFFF_FFFF != 0
  }

  /**
    `utils::toBoolean`: Null is false, a bool is itself, a number is its
    non-zero-ness (a NaN is false), a string handle is true when non-null and
    non-empty, any other handle when non-null. An integer is truthy exactly
    when its decimal rendering is not "0".
   */
  function ToBoolean(v: Value): (b: bool)
    reads if v.StringV? && v.h != null then {v.h} else {}
    ensures v.NullV? || (v.IsHandle() && v.h == null) ==> !b
    ensures v.BoolV? ==> b == v.b
    ensures v.Int32V? ==> (b <==> ToDecimal(v.i) != "0")
    ensures v.UInt32V? ==> (b <==> ToDecimal(v.u) != "0")
    ensures v.UInt64V? ==> (b <==> ToDecimal(v.w) != "0")
    ensures v.StringV? && v.h != null ==> (b <==> |v.h.text| > 0)
    ensures v.IsHandle() && v.h != null && !v.StringV? ==> b
  {
    match v
    case NullV => false
    case BoolV(b) => b
    case Int32V(i) => DecimalZero(i); i != 0
    case UInt32V(u) => DecimalZero(u); u != 0
    case UInt64V(w) => DecimalZero(w); w != 0
    case DoubleV(bits) => !IsZeroBits(bits) && !IsNaNBits(bits)
    case StringV(h) => h != null && h.text != ""
    case _ => v.h != null
  }

  // ---------------------------------------------------------------------
  // What the model cannot see
  // ---------------------------------------------------------------------

  /**
    The environment of the engine: the floating-point and calendar renderings
    (`std::to_string(double)`, `localtime` + `put_time` of a second count), the
    results of caller-supplied getters and function bodies, and how many
    levels of nested arrays a rendering expands.
   */
  datatype Env = Env(
    formatDouble: bv64 -> string,
    formatDate: int -> string,
    userGetter: nat -> Value,
    userFunction: (nat, seq<Value>) -> Value,
    renderDepth: nat)

  // ---------------------------------------------------------------------
  // Descriptors
  // ---------------------------------------------------------------------

  /** The getters the engine installs itself, and opaque caller-supplied ones. */
  datatype Getter =
    | StringLength          // JString "length": the text's size as uint32
    | ArrayLength           // JArray "length": the element count as uint32
    | ElementGet(index: nat) // JArray index name: the element, or Null once the index is out of range
    | FunctionName          // JFunction "name": a fresh string holding the current name
    | UserGetter(id: nat)

  /** The setters the engine installs itself, and opaque caller-supplied ones. */
  datatype Setter =
    | ArrayResize            // JArray "length": resize to a uint32 value, ignore anything else
    | ElementSet(index: nat) // JArray index name: overwrite the element while the index is in range
    | UserSetter(id: nat)

  /** `PropertyDescriptor`. */
  datatype Descriptor = Descriptor(
    value: Value,
    writable: bool,
    enumerable: bool,
    configurable: bool,
    getter: Option<Getter>,
    setter: Option<Setter>)

  /** A default-constructed descriptor holding `v`: the one `setProperty` inserts. */
  function PlainDescriptor(v: Value): Descriptor {
    Descriptor(v, true, true, true, None, None)
  }

  /** The descriptor `utils::def_prop_ex` builds: accessors and flags as given, value Null. */
  function ExDescriptor(g: Option<Getter>, s: Option<Setter>, writable: bool, enumerable: bool, configurable: bool): Descriptor {
    Descriptor(NullV, writable, enumerable, configurable, g, s)
  }

  /** The descriptor `utils::def_prop_val` builds: a value and flags, no accessors. */
  function ValDescriptor(v: Value, writable: bool, enumerable: bool, configurable: bool): Descriptor {
    Descriptor(v, writable, enumerable, configurable, None, None)
  }

  /** The descriptor `utils::def_prop_rw` builds. */
  function RwDescriptor(g: Option<Getter>, s: Option<Setter>): Descriptor {
    ExDescriptor(g, s, true, true, true)
  }

  /** The descriptor `utils::def_prop_ro` builds. */
  function RoDescriptor(g: Option<Getter>): Descriptor {
    ExDescriptor(g, None, false, true, true)
  }

  const StringLengthDescriptor := ExDescriptor(Some(StringLength), None, false, false, false)
  const ArrayLengthDescriptor := ExDescriptor(Some(ArrayLength), Some(ArrayResize), true, false, false)
  const FunctionNameDescriptor := ExDescriptor(Some(FunctionName), None, false, false, true)
  const FunctionLengthDescriptor := ValDescriptor(UInt32V(0), false, false, true)

  /** The descriptor `JArray::updateLength` defines for index `i`. */
  function IndexDescriptor(i: nat): Descriptor {
    ExDescriptor(Some(ElementGet(i)), Some(ElementSet(i)), true, true, true)
  }

  /** The index descriptors "0" .. "n-1" that `JArray::updateLength` defines. */
  function IndexTable(n: nat): map<string, Descriptor> {
    if n == 0 then map[] else IndexTable(n - 1)[ToDecimal(n - 1) := IndexDescriptor(n - 1)]
  }

  /** Updating the right operand of a map merge is updating the merge. */
  lemma MergeUpdate(a: map<string, Descriptor>, b: map<string, Descriptor>, k: string, d: Descriptor)
    ensures a + b[k := d] == (a + b)[k := d]
  {
  }

  /** The table of a freshly constructed JString. */
  function StringTable(): map<string, Descriptor> {
    map["length" := StringLengthDescriptor]
  }

  /** The table of a JArray constructed with `n` elements. */
  function ArrayTable(n: nat): map<string, Descriptor> {
    map["length" := ArrayLengthDescriptor] + IndexTable(n)
  }

  /** The table of a freshly constructed JFunction. */
  function FunctionTable(): map<string, Descriptor> {
    map["name" := FunctionNameDescriptor, "length" := FunctionLengthDescriptor]
  }

  // ---------------------------------------------------------------------
  // The stored table: deletion, writes, enumeration
  // ---------------------------------------------------------------------

  /** `deleteProperty`: the table afterwards and the result. */
  function Deleted(props: map<string, Descriptor>, name: string): (map<string, Descriptor>, bool) {
    if name in props && props[name].configurable then (props - {name}, true) else (props, false)
  }

  /** Which branch `setProperty` takes. */
  datatype WriteStep = RunSetter(setter: Setter) | Overwrite | Reject | Insert

  function WriteStepOf(props: map<string, Descriptor>, name: string): WriteStep {
    if name !in props then Insert
    else if props[name].setter.Some? then RunSetter(props[name].setter.value)
    else if props[name].writable then Overwrite
    else Reject
  }

  /** The table after `setProperty(name, v)` (a setter changes the payload, not the table). */
  function Written(props: map<string, Descriptor>, name: string, v: Value): map<string, Descriptor> {
    match WriteStepOf(props, name)
    case Insert => props[name := PlainDescriptor(v)]
    case Overwrite => props[name := props[name].(value := v)]
    case _ => props
  }

  /** The names `getPropertyNames` reports. */
  function EnumerableNames(props: map<string, Descriptor>): set<string> {
    set n | n in props && props[n].enumerable
  }

  /** The element sequence after a built-in setter ran on it with `v`. */
  function SetterEffect(s: Setter, elems: seq<Value>, v: Value): seq<Value> {
    match s
    case ArrayResize => if v.UInt32V? then ListOps.Resize(elems, v.u, NullV) else elems
    case ElementSet(i) => if i < |elems| then elems[i := v] else elems
    case UserSetter(_) => elems
  }

  // ---------------------------------------------------------------------
  // Read resolution
  // ---------------------------------------------------------------------

  /** Which C++ class an object is. */
  datatype Kind = PlainObject | StringObject | ArrayObject | FunctionObject | DateObject

  /** `getType()` of each class. */
  function KindType(k: Kind): (t: ValueType)
    ensures TypeOrdinal(t) >= 6
    ensures t.ObjectType? <==> k.PlainObject?
  {
    match k
    case PlainObject => ObjectType
    case StringObject => StringType
    case ArrayObject => ArrayType
    case FunctionObject => FunctionType
    case DateObject => DateType
  }

  /** The built-in callables that `getPropertyInternal` synthesizes. */
  datatype Member =
    | ToStringMember
    | ConcatMember | IndexOfMember | LastIndexOfMember
    | PushMember | PopMember | ShiftMember | UnshiftMember | SpliceMember | SliceMember
    | CallMember
    | GetTimeMember | SetTimeMember

  /** The name the synthesized JFunction carries. */
  function MemberName(m: Member): string {
    match m
    case ToStringMember => "toString"
    case ConcatMember => "concat"
    case IndexOfMember => "indexOf"
    case LastIndexOfMember => "lastIndexOf"
    case PushMember => "push"
    case PopMember => "pop"
    case ShiftMember => "shift"
    case UnshiftMember => "unshift"
    case SpliceMember => "splice"
    case SliceMember => "slice"
    case CallMember => "call"
    case GetTimeMember => "getTime"
    case SetTimeMember => "setTime"
  }

  /** The members that change the object they were made for. */
  predicate Mutates(m: Member) {
    m in {PushMember, PopMember, ShiftMember, UnshiftMember, SpliceMember, SetTimeMember}
  }

  /** The names a kind's own `getPropertyInternal` answers before looking at the table. */
  function BuiltinMember(k: Kind, name: string): (r: Option<Member>)
    ensures r.Some? ==> MemberName(r.value) == name && r.value != ToStringMember
    ensures k == PlainObject ==> r.None?
    ensures k == StringObject ==> (r.Some? <==> name == "concat" || name == "indexOf" || name == "lastIndexOf")
    ensures k == ArrayObject ==> (r.Some? <==> name == "push" || name == "pop" || name == "shift" || name == "unshift" || name == "splice" || name == "slice")
    ensures k == FunctionObject ==> (r.Some? <==> name == "call")
    ensures k == DateObject ==> (r.Some? <==> name == "getTime" || name == "setTime")
  {
    match k
    case PlainObject => None
    case StringObject =>
      if name == "concat" then Some(ConcatMember)
      else if name == "indexOf" then Some(IndexOfMember)
      else if name == "lastIndexOf" then Some(LastIndexOfMember)
      else None
    case ArrayObject =>
      if name == "push" then Some(PushMember)
      else if name == "pop" then Some(PopMember)
      else if name == "shift" then Some(ShiftMember)
      else if name == "unshift" then Some(UnshiftMember)
      else if name == "splice" then Some(SpliceMember)
      else if name == "slice" then Some(SliceMember)
      else None
    case FunctionObject => if name == "call" then Some(CallMember) else None
    case DateObject =>
      if name == "getTime" then Some(GetTimeMember)
      else if name == "setTime" then Some(SetTimeMember)
      else None
  }

  /** The outcome of `getPropertyInternal`, before any getter runs. */
  datatype Resolution =
    | Synthesized(member: Member)   // a fresh JFunction bound to the receiver
    | ByGetter(getter: Getter)      // the stored descriptor's getter is invoked
    | Stored(value: Value)          // the stored descriptor's value
    | Absent                        // Null

  /**
    Read order: the kind's built-in names, then the stored descriptor (its
    getter if present, else its value), then "toString", then Null.
   */
  function Resolve(k: Kind, props: map<string, Descriptor>, name: string): Resolution {
    match BuiltinMember(k, name)
    case Some(m) => Synthesized(m)
    case None =>
      if name in props then
        (if props[name].getter.Some? then ByGetter(props[name].getter.value) else Stored(props[name].value))
      else if name == "toString" then Synthesized(ToStringMember)
      else Absent
  }

  // ---------------------------------------------------------------------
  // Rendering (`valueToString` and the `toString` overrides)
  // ---------------------------------------------------------------------

  /**
    `utils::valueToString`, expanding at most `depth` levels of nested
    arrays (an array below that renders as the empty string).
   */
  function RenderAt(v: Value, depth: nat, env: Env): (s: string)
    reads *
    decreases depth, 2
    ensures v.NullV? || (v.IsHandle() && v.h == null) ==> s == "null"
    ensures v.BoolV? ==> s == if v.b then "true" else "false"
    ensures v.UInt32V? ==> ParseIndex(s) == Some(v.u)
    ensures v.UInt64V? ==> ParseIndex(s) == Some(v.w)
    ensures v.Int32V? && v.i >= 0 ==> ParseIndex(s) == Some(v.i)
    ensures v.Int32V? && v.i < 0 ==> |s| >= 2 && s[0] == '-' && ParseIndex(s[1..]) == Some(-(v.i as int))
  {
    match v
    case NullV => "null"
    case BoolV(b) => if b then "true" else "false"
    case Int32V(i) => ToDecimal(i)
    case UInt32V(u) => ToDecimal(u)
    case UInt64V(w) => ToDecimal(w)
    case DoubleV(bits) => env.formatDouble(bits)
    case _ => if v.h == null then "null" else ObjectText(v.h, depth, env)
  }

  /** `toString()` of an object, dispatched on its class. */
  function ObjectText(o: JObject, depth: nat, env: Env): (s: string)
    reads *
    decreases depth, 1
    ensures o.kind == StringObject ==> s == o.text
    ensures o.kind == ArrayObject && (depth == 0 || o.elems == []) ==> s == ""
    ensures o.kind == ArrayObject && depth > 0 ==> |s| >= |o.elems| - 1
  {
    match o.kind
    case PlainObject => "[object Object]"
    case StringObject => o.text
    case ArrayObject => if depth == 0 then "" else JoinRendered(o.elems, depth - 1, env)
    case FunctionObject => "function " + o.name + "() { [native code] }"
    case DateObject => env.formatDate(o.seconds)
  }

  /**
    `JArray::toString`: the elements' renderings separated by commas, so
    there are at least as many characters as separators.
   */
  function JoinRendered(es: seq<Value>, depth: nat, env: Env): (s: string)
    reads *
    decreases depth, 3, |es|
    ensures |es| == 0 ==> s == ""
    ensures |es| == 1 ==> s == RenderAt(es[0], depth, env)
    ensures |es| > 0 ==> |s| >= |es| - 1
  {
    if |es| == 0 then ""
    else if |es| == 1 then RenderAt(es[0], depth, env)
    else JoinRendered(es[..|es| - 1], depth, env) + "," + RenderAt(es[|es| - 1], depth, env)
  }

  /** The elements' renderings, in order. */
  function Renderings(es: seq<Value>, depth: nat, env: Env): (rs: seq<string>)
    reads *
    ensures |rs| == |es|
  {
    if |es| == 0 then []
    else Renderings(es[..|es| - 1], depth, env) + [RenderAt(es[|es| - 1], depth, env)]
  }

  /**
    `utils::valueToString`: a non-null handle renders as its object's
    `toString`, and a value that is no handle renders the same at any depth.
   */
  function Render(v: Value, env: Env): (s: string)
    reads *
    ensures v.IsHandle() && v.h != null ==> s == v.h.ToString(env)
    ensures !v.IsHandle() ==> s == RenderAt(v, 0, env)
  {
    RenderAt(v, env.renderDepth, env)
  }

  // ---------------------------------------------------------------------
  // Built-in member results that are values of the current state
  // ---------------------------------------------------------------------

  /** The `k`-th argument when it holds an int32 (`std::holds_alternative<int32_t>`). */
  function Int32Arg(args: seq<Value>, k: nat): Option<int32> {
    if k < |args| && args[k].Int32V? then Some(args[k].i) else None
  }

  function Int32ArgOr(args: seq<Value>, k: nat, default: int): int {
    match Int32Arg(args, k)
    case Some(x) => x
    case None => default
  }

  /** The renderings of the arguments, one after another. */
  function RenderedArgs(args: seq<Value>, env: Env): string
    reads *
  {
    if |args| == 0 then "" else RenderedArgs(args[..|args| - 1], env) + RenderAt(args[|args| - 1], env.renderDepth, env)
  }

  /** The text `concat` produces: the receiver's text, then each argument rendered. */
  function ConcatText(text: string, args: seq<Value>, env: Env): string
    reads *
  {
    text + RenderedArgs(args, env)
  }

  /**
    `indexOf`: the first position of the rendered first argument, or -1 when
    it is absent or no argument is given.
   */
  function IndexOfResult(text: string, args: seq<Value>, env: Env): (r: int32)
    reads *
    ensures |args| == 0 ==> r == -1
    ensures |args| > 0 && |text| < TWO_31 ==>
      var needle := Render(args[0], env);
      && (r == -1 <==> forall j :: !Text.OccursAt(text, needle, j))
      && (r != -1 ==> 0 <= r && Text.OccursAt(text, needle, r) && forall j :: 0 <= j < r ==> !Text.OccursAt(text, needle, j))
  {
    if |args| == 0 then -1
    else match Text.Find(text, Render(args[0], env))
      case None => -1
      case Some(p) => ToInt32(p)
  }

  /**
    `lastIndexOf`: the last position of the rendered first argument, or -1
    when it is absent or no argument is given.
   */
  function LastIndexOfResult(text: string, args: seq<Value>, env: Env): (r: int32)
    reads *
    ensures |args| == 0 ==> r == -1
    ensures |args| > 0 && |text| < TWO_31 ==>
      var needle := Render(args[0], env);
      && (r == -1 <==> forall j :: !Text.OccursAt(text, needle, j))
      && (r != -1 ==> 0 <= r && Text.OccursAt(text, needle, r) && forall j :: r < j ==> !Text.OccursAt(text, needle, j))
  {
    if |args| == 0 then -1
    else match Text.RFind(text, Render(args[0], env))
      case None => -1
      case Some(p) =>
        assert p <= |text|;
        ToInt32(p)
  }

  /**
    `slice(start, end)`: the elements from the normalised start up to the
    normalised end, or none when start >= end. A negative bound counts from
    the end, both are clamped to the size, non-int32 arguments are ignored and
    the defaults are 0 and the size.
   */
  function SliceOf(elems: seq<Value>, args: seq<Value>): (r: seq<Value>)
    ensures
      var s := ListOps.ClampIndex(Int32ArgOr(args, 0, 0), |elems|);
      var e := ListOps.ClampIndex(Int32ArgOr(args, 1, |elems|), |elems|);
      r == if s < e then elems[s..e] else []
  {
    var size := |elems|;
    var start := Int32ArgOr(args, 0, 0);
    var end := Int32ArgOr(args, 1, size);
    var start' := if start < 0 then (if size + start > 0 then size + start else 0) else start;
    var end' := if end < 0 then (if size + end > 0 then size + end else 0) else end;
    var startIndex := if start' < size then start' else size;
    var endIndex := if end' < size then end' else size;
    if startIndex >= endIndex then [] else elems[startIndex..endIndex]
  }

  /** What `splice` removes and what it leaves. */
  datatype Spliced = Spliced(removed: seq<Value>, remaining: seq<Value>)

  /** The insertions of `splice`: the arguments after the first two. */
  function Insertions(args: seq<Value>): seq<Value> {
    if |args| > 2 then args[2..] else []
  }

  /**
    `splice(start, deleteCount, items...)`: with no argument nothing happens.
    Otherwise start is normalised as for `slice`, deleteCount is clamped to
    [0, size - start] (all the rest when it is not an int32), the removed run
    is returned and the items take its place.
   */
  function SpliceOf(elems: seq<Value>, args: seq<Value>): (r: Spliced)
    ensures |args| == 0 ==> r == Spliced([], elems)
    ensures |args| > 0 ==>
      var s := ListOps.ClampIndex(Int32ArgOr(args, 0, 0), |elems|);
      var c := |r.removed|;
      && s + c <= |elems|
      && (Int32Arg(args, 1).None? ==> c == |elems| - s)
      && (Int32Arg(args, 1).Some? ==>
            var n := Int32Arg(args, 1).value;
            c == if n <= 0 then 0 else if n <= |elems| - s then n else |elems| - s)
      && r.removed == elems[s..s + c]
      && r.remaining == elems[..s] + Insertions(args) + elems[s + c..]
  {
    if |args| == 0 then Spliced([], elems)
    else
      var size := |elems|;
      var start := Int32ArgOr(args, 0, 0);
      var deleteCount: nat := match Int32Arg(args, 1)
        case Some(n) => if n > 0 then n else 0
        case None => size;
      var start' := if start < 0 then (if size + start > 0 then size + start else 0) else start;
      var startIndex := if start' < size then start' else size;
      var count := if deleteCount < size - startIndex then deleteCount else size - startIndex;
      Spliced(elems[startIndex..startIndex + count],
              elems[..startIndex] + Insertions(args) + elems[startIndex + count..])
  }

  /** The timestamp `setTime` is given: a uint64 (converted to int64) or an int32 first argument. */
  function SetTimeArg(args: seq<Value>): Option<int64> {
    if |args| == 0 then None
    else if args[0].UInt64V? then Some(ToInt64(args[0].w))
    else if args[0].Int32V? then Some(args[0].i)
    else None
  }

  // ---------------------------------------------------------------------
  // Objects
  // ---------------------------------------------------------------------

  /** The body of a JFunction (`function_`). */
  datatype Closure =
    | NoCode                               // an empty std::function
    | UserCode(id: nat)                    // a caller-supplied closure, opaque
    | Bound(target: JObject, member: Member) // a built-in synthesized for `target`

  class JObject {
    const kind: Kind
    /** `properties_` */
    var props: map<string, Descriptor>
    /** JString::value_ */
    var text: string
    /** JArray::value_ */
    var elems: seq<Value>
    /** JFunction::name_ */
    var name: string
    /** JFunction::function_ */
    const code: Closure
    /** How many `call` forwardings lie behind `code`; it is what makes the forwarding chain finite. */
    const callDepth: nat
    /** JDate::time_, a whole number of seconds since the epoch (it is built with `from_time_t`). */
    var seconds: int

    /** Every `call` forwarding leads to an object nearer the end of the chain. */
    predicate ChainOk()
      decreases callDepth
    {
      code.Bound? && code.member == CallMember ==>
        code.target.callDepth < callDepth && code.target.ChainOk()
    }

    /** The objects a call of this function may change. */
    function CallFootprint(): set<object>
      requires ChainOk()
      decreases callDepth
    {
      match code
      case Bound(t, m) =>
        if m == CallMember then t.CallFootprint()
        else if Mutates(m) then {t}
        else {}
      case _ => {}
    }

    /**
      The function a call of this one ends up running: a `call` member
      forwards to its target, and so on to the end of the chain.
     */
    function Callee(): (f: JObject)
      requires ChainOk()
      decreases callDepth
      ensures f.ChainOk() && !(f.code.Bound? && f.code.member == CallMember)
      ensures f.CallFootprint() == CallFootprint()
      ensures !(code.Bound? && code.member == CallMember) ==> f == this
    {
      if code.Bound? && code.member == CallMember then code.target.Callee() else this
    }

    // -------------------------------------------------------------------
    // Constructors
    // -------------------------------------------------------------------

    /** `JObject()`: an empty table. */
    constructor Plain()
      ensures kind == PlainObject && props == map[] && code == NoCode && ChainOk()
    {
      kind, props, text, elems, name, code, callDepth, seconds := PlainObject, map[], "", [], "", NoCode, 0, 0;
    }

    /** `JString(str)`: the text and a read-only, hidden, permanent "length". */
    constructor FromString(s: string)
      ensures kind == StringObject && text == s && props == StringTable() && code == NoCode && ChainOk()
    {
      kind, props, text, elems, name, code, callDepth, seconds := StringObject, StringTable(), s, [], "", NoCode, 0, 0;
    }

    /** `JString(const char*)`: a null pointer gives the empty text. */
    constructor FromCString(s: Option<string>)
      ensures kind == StringObject && text == (if s.Some? then s.value else "") && props == StringTable()
      ensures code == NoCode && ChainOk()
    {
      kind, props, elems, name, code, callDepth, seconds := StringObject, StringTable(), [], "", NoCode, 0, 0;
      text := if s.Some? then s.value else "";
    }

    /** `JArray(values)`: the elements, the "length" accessor and one index accessor per element. */
    constructor FromValues(vs: seq<Value>)
      ensures kind == ArrayObject && elems == vs && props == ArrayTable(|vs|) && code == NoCode && ChainOk()
    {
      kind, text, elems, name, code, callDepth, seconds := ArrayObject, "", vs, "", NoCode, 0, 0;
      props := map["length" := ArrayLengthDescriptor];
      new;
      UpdateLength();
    }

    /** `JArray(size)`: `size` Null elements. */
    constructor Sized(size: nat)
      ensures kind == ArrayObject && elems == seq(size, _ => NullV) && props == ArrayTable(size)
      ensures code == NoCode && ChainOk()
    {
      kind, text, name, code, callDepth, seconds := ArrayObject, "", "", NoCode, 0, 0;
      elems := seq(size, _ => NullV);
      props := map["length" := ArrayLengthDescriptor];
      new;
      UpdateLength();
    }

    /** `JFunction(name, func)` with a caller-supplied body, or none. */
    constructor Function(fname: string, body: Option<nat>)
      ensures kind == FunctionObject && name == fname && props == FunctionTable()
      ensures code == (if body.Some? then UserCode(body.value) else NoCode) && ChainOk()
    {
      kind, props, text, elems, name, callDepth, seconds := FunctionObject, FunctionTable(), "", [], fname, 0, 0;
      code := if body.Some? then UserCode(body.value) else NoCode;
    }

    /** The JFunction `getPropertyInternal` synthesizes for member `m` of `target`. */
    constructor BuiltinFunction(target: JObject, m: Member)
      requires target.ChainOk()
      ensures kind == FunctionObject && name == MemberName(m) && props == FunctionTable()
      ensures code == Bound(target, m) && ChainOk()
    {
      kind, props, text, elems, name, seconds := FunctionObject, FunctionTable(), "", [], MemberName(m), 0;
      code := Bound(target, m);
      callDepth := if m == CallMember then target.callDepth + 1 else 0;
    }

    /** `JDate(timestamp)`: the time is `from_time_t(timestamp / 1000)`. */
    constructor FromTimestamp(t: int64)
      ensures kind == DateObject && seconds == Quot1000(t) && props == map[] && code == NoCode && ChainOk()
    {
      kind, props, text, elems, name, code, callDepth := DateObject, map[], "", [], "", NoCode, 0;
      seconds := Quot1000(t);
    }

    // -------------------------------------------------------------------
    // The property table (JObject)
    // -------------------------------------------------------------------

    /** `defineProperty`: an unconditional upsert, even over a non-configurable entry. */
    method DefineProperty(pname: string, d: Descriptor) returns (ok: bool)
      modifies this`props
      ensures ok && props == old(props)[pname := d]
    {
      props := props[pname := d];
      ok := true;
    }

    /** `deleteProperty`: removes the name only when it is stored and configurable. */
    method DeleteProperty(pname: string) returns (ok: bool)
      modifies this`props
      ensures ok <==> pname in old(props) && old(props)[pname].configurable
      ensures props == if ok then old(props) - {pname} else old(props)
    {
      if pname in props && props[pname].configurable {
        props := props - {pname};
        ok := true;
      } else {
        ok := false;
      }
    }

    /** `hasProperty`: only the stored table counts. */
    predicate HasProperty(pname: string)
      reads this
    {
      pname in props
    }

    /** `getPropertyNames`: each enumerable stored name exactly once, in no particular order. */
    method GetPropertyNames() returns (names: seq<string>)
      ensures forall n :: n in names <==> n in props && props[n].enumerable
      ensures forall i, j :: 0 <= i < j < |names| ==> names[i] != names[j]
    {
      names := [];
      var rest := props.Keys;
      while rest != {}
        invariant rest <= props.Keys
        invariant forall n :: n in names <==> n in props && n !in rest && props[n].enumerable
        invariant forall i, j :: 0 <= i < j < |names| ==> names[i] != names[j]
        decreases rest
      {
        var k :| k in rest;
        if props[k].enumerable {
          names := names + [k];
        }
        rest := rest - {k};
      }
    }

    /** What a built-in getter other than `FunctionName` yields on this object. */
    function ComputedValue(g: Getter, env: Env): Value
      reads this
      requires !g.FunctionName?
    {
      match g
      case StringLength => UInt32V(ToUInt32(|text|))
      case ArrayLength => UInt32V(ToUInt32(|elems|))
      case ElementGet(i) => if i < |elems| then elems[i] else NullV
      case UserGetter(id) => env.userGetter(id)
    }

    /** A read of `pname` allocates its result (a synthesized function or the "name" string). */
    predicate ReadAllocates(pname: string)
      reads this
    {
      Resolve(kind, props, pname).Synthesized? || Resolve(kind, props, pname) == ByGetter(FunctionName)
    }

    /** `v` is what `getProperty(pname)` returns in the current state (apart from freshness). */
    ghost predicate ReadYields(pname: string, env: Env, v: Value)
      reads *
    {
      match Resolve(kind, props, pname)
      case Synthesized(m) =>
        && v.FunctionV? && v.h != null && v.h.kind == FunctionObject
        && v.h.code == Bound(this, m) && v.h.name == MemberName(m) && v.h.props == FunctionTable()
        && v.h.ChainOk()
      case ByGetter(g) =>
        if g.FunctionName? then
          v.StringV? && v.h != null && v.h.kind == StringObject && v.h.text == name && v.h.props == StringTable()
          && v.h.code == NoCode && v.h.ChainOk()
        else v == ComputedValue(g, env)
      case Stored(x) => v == x
      case Absent => v == NullV
    }

    /** `getProperty` / `operator[](name)`: the kind's `getPropertyInternal`. */
    method GetProperty(pname: string, env: Env) returns (v: Value)
      requires ChainOk()
      ensures ReadYields(pname, env, v)
      ensures ReadAllocates(pname) ==> v.h != null && fresh(v.h)
    {
      var res := Resolve(kind, props, pname);
      if res.Synthesized? {
        var f := new JObject.BuiltinFunction(this, res.member);
        v := FunctionV(f);
      } else if res == ByGetter(FunctionName) {
        var s := new JObject.FromString(name);
        v := StringV(s);
      } else if res.ByGetter? {
        v := ComputedValue(res.getter, env);
      } else if res.Stored? {
        v := res.value;
      } else {
        v := NullV;
      }
    }

    /** `operator[](int)` and `operator[](size_t)`: the decimal name of the index. */
    method GetIndex(index: int, env: Env) returns (v: Value)
      requires ChainOk()
      ensures ReadYields(ToDecimal(index), env, v)
      ensures ReadAllocates(ToDecimal(index)) ==> v.h != null && fresh(v.h)
    {
      v := GetProperty(ToDecimal(index), env);
    }

    /**
      `setProperty`: a stored setter runs and the write succeeds; otherwise a
      stored value is overwritten iff writable; an unstored name gets a plain
      descriptor.
     */
    method SetProperty(pname: string, v: Value) returns (ok: bool)
      modifies this`props, this`elems
      ensures ok <==> !WriteStepOf(old(props), pname).Reject?
      ensures props == Written(old(props), pname, v)
      ensures elems == match WriteStepOf(old(props), pname)
                       case RunSetter(s) => SetterEffect(s, old(elems), v)
                       case _ => old(elems)
    {
      if pname in props {
        var d := props[pname];
        if d.setter.Some? {
          RunSetter(d.setter.value, v);
          ok := true;
        } else if d.writable {
          props := props[pname := d.(value := v)];
          ok := true;
        } else {
          ok := false;
        }
      } else {
        props := props[pname := PlainDescriptor(v)];
        ok := true;
      }
    }

    /** `setPropertyValue(int|size_t, v)`: a write to the decimal name of the index. */
    method SetIndex(index: int, v: Value)
      modifies this`props, this`elems
      ensures props == Written(old(props), ToDecimal(index), v)
      ensures elems == match WriteStepOf(old(props), ToDecimal(index))
                       case RunSetter(s) => SetterEffect(s, old(elems), v)
                       case _ => old(elems)
    {
      var _ := SetProperty(ToDecimal(index), v);
    }

    /** A built-in setter: the "length" setter resizes without redefining index names. */
    method RunSetter(s: Setter, v: Value)
      modifies this`elems
      ensures elems == SetterEffect(s, old(elems), v)
    {
      match s
      case ArrayResize =>
        if v.UInt32V? {
          elems := ListOps.Resize(elems, v.u, NullV);
        }
      case ElementSet(i) =>
        if i < |elems| {
          elems := elems[i := v];
        }
      case UserSetter(_) =>
    }

    /** `toString()` of this object. */
    function ToString(env: Env): string
      reads *
    {
      ObjectText(this, env.renderDepth, env)
    }

    /** `getType()`: the `ValueType` tag of this object's class. */
    function GetType(): (t: ValueType)
    {
      KindType(kind)
    }

    /** The `toString` member: a fresh string holding this object's rendering. */
    method ToStringValue(env: Env) returns (r: Value)
      ensures r.StringV? && r.h != null && fresh(r.h) && r.h.kind == StringObject && r.h.ChainOk()
      ensures r.h.text == old(ToString(env)) && r.h.props == StringTable()
    {
      var s := new JObject.FromString(ToString(env));
      r := StringV(s);
    }

    // -------------------------------------------------------------------
    // JString
    // -------------------------------------------------------------------

    /** `JString::At`: the character, or '\0' out of range. */
    function CharAt(i: nat): (c: char)
      reads this
      ensures i < |text| ==> c == text[i]
      ensures i >= |text| ==> c == '\0'
    {
      if i >= |text| then '\0' else text[i]
    }

    /** `JString::Front`. */
    function FrontChar(): (c: char)
      reads this
      ensures c == CharAt(0)
    {
      if |text| == 0 then '\0' else text[0]
    }

    /** `JString::Back`. */
    function BackChar(): (c: char)
      reads this
      ensures |text| > 0 ==> c == CharAt(|text| - 1)
      ensures |text| == 0 ==> c == '\0'
    {
      if |text| == 0 then '\0' else text[|text| - 1]
    }

    /** `JString::Size`. */
    function TextSize(): nat
      reads this
    {
      |text|
    }

    /** `JString::Empty`. */
    predicate TextEmpty()
      reads this
    {
      text == ""
    }

    /** `JString::setValue`. */
    method SetValue(s: string)
      modifies this`text
      ensures text == s
    {
      text := s;
    }

    /** `JString::Clear`. */
    method ClearText()
      modifies this`text
      ensures text == ""
    {
      text := "";
    }

    /** The `concat` member: a fresh string of the text followed by each argument rendered. */
    method Concat(args: seq<Value>, env: Env) returns (r: Value)
      ensures r.StringV? && r.h != null && fresh(r.h) && r.h.kind == StringObject && r.h.ChainOk()
      ensures r.h.text == old(ConcatText(text, args, env)) && r.h.props == StringTable()
    {
      var s := new JObject.FromString(ConcatText(text, args, env));
      r := StringV(s);
    }

    // -------------------------------------------------------------------
    // JArray
    // -------------------------------------------------------------------

    /**
      `JArray::updateLength`: (re)defines the index descriptors "0" .. "n-1"
      for the current size n. It never removes a name.
     */
    method UpdateLength()
      modifies this`props
      ensures props == old(props) + IndexTable(|elems|)
    {
      var i := 0;
      while i < |elems|
        invariant 0 <= i <= |elems|
        invariant props == old(props) + IndexTable(i)
      {
        MergeUpdate(old(props), IndexTable(i), ToDecimal(i), IndexDescriptor(i));
        props := props[ToDecimal(i) := IndexDescriptor(i)];
        i := i + 1;
      }
    }

    /** `JArray::Size`. */
    function ElementCount(): nat
      reads this
    {
      |elems|
    }

    /** `JArray::Empty`. */
    predicate ElementsEmpty()
      reads this
    {
      elems == []
    }

    /** `JArray::At` (and JArray's own `operator[](size_t)`): the element, or Null out of range. */
    function ElementAt(i: nat): (v: Value)
      reads this
      ensures i < |elems| ==> v == elems[i]
      ensures i >= |elems| ==> v == NullV
    {
      if i >= |elems| then NullV else elems[i]
    }

    /** `JArray::Front`. */
    function FrontElement(): (v: Value)
      reads this
      ensures v == ElementAt(0)
    {
      if |elems| == 0 then NullV else elems[0]
    }

    /** `JArray::Back`. */
    function BackElement(): (v: Value)
      reads this
      ensures |elems| > 0 ==> v == ElementAt(|elems| - 1)
      ensures |elems| == 0 ==> v == NullV
    {
      if |elems| == 0 then NullV else elems[|elems| - 1]
    }

    /** `JArray::Clear`: no elements; the index names already defined stay. */
    method ClearElements()
      modifies this`elems, this`props
      ensures elems == [] && props == old(props)
    {
      elems := [];
      UpdateLength();
    }

    /** `JArray::setElement`: grows the array with Null up to the index, then stores the value. */
    method SetElement(index: nat, v: Value)
      modifies this`elems, this`props
      ensures |elems| == if index < |old(elems)| then |old(elems)| else index + 1
      ensures elems[index] == v
      ensures forall i :: 0 <= i < |elems| && i != index ==> elems[i] == if i < |old(elems)| then old(elems)[i] else NullV
      ensures props == old(props) + IndexTable(|elems|)
    {
      if index >= |elems| {
        elems := ListOps.Resize(elems, index + 1, NullV);
      }
      elems := elems[index := v];
      UpdateLength();
    }

    /** The `push` member: appends the arguments in order and returns the new size. */
    method Push(args: seq<Value>) returns (r: Value)
      modifies this`elems, this`props
      ensures elems == old(elems) + args
      ensures props == old(props) + IndexTable(|elems|)
      ensures r == UInt32V(ToUInt32(|elems|))
    {
      var i := 0;
      while i < |args|
        invariant 0 <= i <= |args|
        invariant elems == old(elems) + args[..i]
        invariant props == old(props)
      {
        elems := elems + [args[i]];
        i := i + 1;
      }
      assert args[..i] == args;
      UpdateLength();
      r := UInt32V(ToUInt32(|elems|));
    }

    /** The `pop` member: removes and returns the last element; Null and no change when empty. */
    method Pop() returns (r: Value)
      modifies this`elems, this`props
      ensures old(elems) == [] ==> r == NullV && elems == [] && props == old(props)
      ensures old(elems) != [] ==>
        && r == old(elems)[|old(elems)| - 1]
        && elems == old(elems)[..|old(elems)| - 1]
        && props == old(props) + IndexTable(|elems|)
    {
      if |elems| == 0 {
        r := NullV;
        return;
      }
      r := elems[|elems| - 1];
      elems := elems[..|elems| - 1];
      UpdateLength();
    }

    /** The `shift` member: removes and returns the first element; Null and no change when empty. */
    method Shift() returns (r: Value)
      modifies this`elems, this`props
      ensures old(elems) == [] ==> r == NullV && elems == [] && props == old(props)
      ensures old(elems) != [] ==>
        && r == old(elems)[0]
        && elems == old(elems)[1..]
        && props == old(props) + IndexTable(|elems|)
    {
      if |elems| == 0 {
        r := NullV;
        return;
      }
      r := elems[0];
      elems := elems[1..];
      UpdateLength();
    }

    /** The `unshift` member: inserts the arguments at the front, in order, and returns the new size. */
    method Unshift(args: seq<Value>) returns (r: Value)
      modifies this`elems, this`props
      ensures elems == args + old(elems)
      ensures props == old(props) + IndexTable(|elems|)
      ensures r == UInt32V(ToUInt32(|elems|))
    {
      elems := args + elems;
      UpdateLength();
      r := UInt32V(ToUInt32(|elems|));
    }

    /**
      The `splice` member. The removed run is copied into a fresh array through
      its element vector, so that array has no index descriptors.
     */
    method Splice(args: seq<Value>) returns (r: Value)
      modifies this`elems, this`props
      ensures r.ArrayV? && r.h != null && fresh(r.h) && r.h.kind == ArrayObject
      ensures r.h.elems == SpliceOf(old(elems), args).removed && r.h.props == ArrayTable(0)
      ensures r.h.code == NoCode && r.h.ChainOk()
      ensures elems == SpliceOf(old(elems), args).remaining
      ensures props == if |args| == 0 then old(props) else old(props) + IndexTable(|elems|)
    {
      var deleted := new JObject.Sized(0);
      if |args| == 0 {
        r := ArrayV(deleted);
        return;
      }
      var startIndex, deleteCount := SpliceBounds(args);
      ghost var sp := SpliceOf(elems, args);
      deleted.AppendRun(elems, startIndex, deleteCount);
      elems := elems[..startIndex] + elems[startIndex + deleteCount..];
      elems := elems[..startIndex] + Insertions(args) + elems[startIndex..];
      assert elems == sp.remaining;
      UpdateLength();
      r := ArrayV(deleted);
    }

    /**
      The start and deleteCount `splice` works with: start normalised as for
      `slice`, deleteCount clamped to what follows it.
     */
    method SpliceBounds(args: seq<Value>) returns (startIndex: nat, deleteCount: nat)
      requires |args| > 0
      ensures startIndex + deleteCount <= |elems|
      ensures SpliceOf(elems, args).removed == elems[startIndex..startIndex + deleteCount]
      ensures SpliceOf(elems, args).remaining == elems[..startIndex] + Insertions(args) + elems[startIndex + deleteCount..]
    {
      var size := |elems|;
      var start := Int32ArgOr(args, 0, 0);
      deleteCount := size;
      if Int32Arg(args, 1).Some? {
        var n := Int32Arg(args, 1).value;
        deleteCount := if n > 0 then n else 0;
      }
      if start < 0 {
        start := if size + start > 0 then size + start else 0;
      }
      startIndex := if start < size then start else size;
      if size - startIndex < deleteCount {
        deleteCount := size - startIndex;
      }
      assert startIndex == ListOps.ClampIndex(Int32ArgOr(args, 0, 0), size);
    }

    /** Appends `src[from..from + count]`, one element at a time. */
    method AppendRun(src: seq<Value>, from: nat, count: nat)
      requires from + count <= |src|
      modifies this`elems
      ensures elems == old(elems) + src[from..from + count]
    {
      var i := 0;
      while i < count
        invariant 0 <= i <= count
        invariant elems == old(elems) + src[from..from + i]
      {
        assert src[from..from + i + 1] == src[from..from + i] + [src[from + i]];
        elems := elems + [src[from + i]];
        i := i + 1;
      }
    }

    /** The `slice` member: a fresh array built by the constructor, so it has index descriptors. */
    method Slice(args: seq<Value>) returns (r: Value)
      ensures r.ArrayV? && r.h != null && fresh(r.h) && r.h.kind == ArrayObject
      ensures r.h.elems == SliceOf(elems, args) && r.h.props == ArrayTable(|r.h.elems|)
      ensures r.h.code == NoCode && r.h.ChainOk()
    {
      var a := new JObject.FromValues(SliceOf(elems, args));
      r := ArrayV(a);
    }

    // -------------------------------------------------------------------
    // JFunction
    // -------------------------------------------------------------------

    /** `JFunction::setName`; the "name" getter reads the new name. */
    method SetName(n: string)
      modifies this`name
      ensures name == n
    {
      name := n;
    }

    /** The JArray members that change the array: `push`, `unshift`, `pop`, `shift` and `splice`. */
    method RunArrayMember(m: Member, args: seq<Value>) returns (r: Value)
      requires m in {PushMember, UnshiftMember, PopMember, ShiftMember, SpliceMember}
      modifies this`elems, this`props
      ensures text == old(text) && name == old(name) && seconds == old(seconds)
      ensures m == PushMember ==>
        && elems == old(elems) + args
        && props == old(props) + IndexTable(|elems|)
        && r == UInt32V(ToUInt32(|elems|))
      ensures m == UnshiftMember ==>
        && elems == args + old(elems)
        && props == old(props) + IndexTable(|elems|)
        && r == UInt32V(ToUInt32(|elems|))
      ensures m == PopMember ==>
        if old(elems) == [] then
          r == NullV && elems == [] && props == old(props)
        else
          && r == old(elems)[|old(elems)| - 1]
          && elems == old(elems)[..|old(elems)| - 1]
          && props == old(props) + IndexTable(|elems|)
      ensures m == ShiftMember ==>
        if old(elems) == [] then
          r == NullV && elems == [] && props == old(props)
        else
          && r == old(elems)[0]
          && elems == old(elems)[1..]
          && props == old(props) + IndexTable(|elems|)
      ensures m == SpliceMember ==>
        && r.ArrayV? && r.h != null && fresh(r.h) && r.h.kind == ArrayObject && r.h.props == ArrayTable(0)
        && r.h.code == NoCode && r.h.ChainOk()
        && r.h.elems == SpliceOf(old(elems), args).removed
        && elems == SpliceOf(old(elems), args).remaining
        && props == if |args| == 0 then old(props) else old(props) + IndexTable(|elems|)
    {
      if m == PushMember {
        r := Push(args);
      } else if m == UnshiftMember {
        r := Unshift(args);
      } else if m == PopMember {
        r := Pop();
      } else if m == ShiftMember {
        r := Shift();
      } else {
        r := Splice(args);
      }
    }

    /** The synthesized members that change no existing object: `toString`, the JString searches and `concat`, `slice` and `getTime`. */
    method RunReadMember(m: Member, args: seq<Value>, env: Env) returns (r: Value)
      requires m in {ToStringMember, ConcatMember, IndexOfMember, LastIndexOfMember, SliceMember, GetTimeMember}
      ensures m == ToStringMember ==>
        && r.StringV? && r.h != null && fresh(r.h) && r.h.kind == StringObject && r.h.props == StringTable() && r.h.ChainOk()
        && r.h.text == old(ToString(env))
      ensures m == ConcatMember ==>
        && r.StringV? && r.h != null && fresh(r.h) && r.h.kind == StringObject && r.h.props == StringTable() && r.h.ChainOk()
        && r.h.text == old(ConcatText(text, args, env))
      ensures m == IndexOfMember ==>
        r == Int32V(old(IndexOfResult(text, args, env)))
      ensures m == LastIndexOfMember ==>
        r == Int32V(old(LastIndexOfResult(text, args, env)))
      ensures m == SliceMember ==>
        && r.ArrayV? && r.h != null && fresh(r.h) && r.h.kind == ArrayObject
        && r.h.elems == SliceOf(old(elems), args) && r.h.props == ArrayTable(|r.h.elems|)
        && r.h.code == NoCode && r.h.ChainOk()
        && elems == old(elems)
      ensures m == GetTimeMember ==>
        r == UInt64V(ToUInt64(old(GetTime())))
    {
      if m == ToStringMember {
        r := ToStringValue(env);
      } else if m == ConcatMember {
        r := Concat(args, env);
      } else if m == IndexOfMember {
        r := Int32V(IndexOfResult(text, args, env));
      } else if m == LastIndexOfMember {
        r := Int32V(LastIndexOfResult(text, args, env));
      } else if m == SliceMember {
        r := Slice(args);
      } else {
        r := UInt64V(ToUInt64(GetTime()));
      }
    }

    /** What a function that is not a `call` member runs: its caller-supplied body, a synthesized member, or nothing. */
    method Invoke(args: seq<Value>, env: Env) returns (r: Value)
      requires ChainOk() && !(code.Bound? && code.member == CallMember)
      modifies CallFootprint()
      ensures code == NoCode ==> r == NullV
      ensures code.UserCode? ==> r == env.userFunction(code.id, args)
      ensures code.Bound? && code.member == IndexOfMember ==>
        r == Int32V(old(IndexOfResult(code.target.text, args, env)))
      ensures code.Bound? && code.member == LastIndexOfMember ==>
        r == Int32V(old(LastIndexOfResult(code.target.text, args, env)))
      ensures code.Bound? && code.member == ConcatMember ==>
        && r.StringV? && r.h != null && fresh(r.h) && r.h.kind == StringObject && r.h.props == StringTable() && r.h.ChainOk()
        && r.h.text == old(ConcatText(code.target.text, args, env))
      ensures code.Bound? && code.member == PushMember ==>
        && code.target.elems == old(code.target.elems) + args
        && code.target.props == old(code.target.props) + IndexTable(|code.target.elems|)
        && r == UInt32V(ToUInt32(|code.target.elems|))
      ensures code.Bound? && code.member == UnshiftMember ==>
        && code.target.elems == args + old(code.target.elems)
        && code.target.props == old(code.target.props) + IndexTable(|code.target.elems|)
        && r == UInt32V(ToUInt32(|code.target.elems|))
      ensures code.Bound? && code.member == PopMember ==>
        if old(code.target.elems) == [] then
          r == NullV && code.target.elems == [] && code.target.props == old(code.target.props)
        else
          && r == old(code.target.elems)[|old(code.target.elems)| - 1]
          && code.target.elems == old(code.target.elems)[..|old(code.target.elems)| - 1]
          && code.target.props == old(code.target.props) + IndexTable(|code.target.elems|)
      ensures code.Bound? && code.member == ShiftMember ==>
        if old(code.target.elems) == [] then
          r == NullV && code.target.elems == [] && code.target.props == old(code.target.props)
        else
          && r == old(code.target.elems)[0]
          && code.target.elems == old(code.target.elems)[1..]
          && code.target.props == old(code.target.props) + IndexTable(|code.target.elems|)
      ensures code.Bound? && code.member == SpliceMember ==>
        && r.ArrayV? && r.h != null && fresh(r.h) && r.h.kind == ArrayObject && r.h.props == ArrayTable(0)
        && r.h.code == NoCode && r.h.ChainOk()
        && r.h.elems == SpliceOf(old(code.target.elems), args).removed
        && code.target.elems == SpliceOf(old(code.target.elems), args).remaining
        && code.target.props == if |args| == 0 then old(code.target.props)
                                         else old(code.target.props) + IndexTable(|code.target.elems|)
      ensures code.Bound? && code.member == SliceMember ==>
        && r.ArrayV? && r.h != null && fresh(r.h) && r.h.kind == ArrayObject
        && r.h.elems == SliceOf(old(code.target.elems), args) && r.h.props == ArrayTable(|r.h.elems|)
        && r.h.code == NoCode && r.h.ChainOk()
        && code.target.elems == old(code.target.elems)
      ensures code.Bound? && code.member == GetTimeMember ==>
        r == UInt64V(ToUInt64(old(code.target.GetTime())))
      ensures code.Bound? && code.member == SetTimeMember ==>
        && code.target.seconds == (match SetTimeArg(args) case Some(t) => Quot1000(t) case None => old(code.target.seconds))
        && r == UInt64V(ToUInt64(code.target.GetTime()))
      ensures code.Bound? && Mutates(code.member) && code.member != SetTimeMember ==>
        && code.target.text == old(code.target.text) && code.target.name == old(code.target.name)
        && code.target.seconds == old(code.target.seconds)
      ensures code.Bound? && code.member == SetTimeMember ==>
        && code.target.props == old(code.target.props) && code.target.elems == old(code.target.elems)
        && code.target.text == old(code.target.text) && code.target.name == old(code.target.name)
      ensures code.Bound? && code.member == ToStringMember ==>
        && r.StringV? && r.h != null && fresh(r.h) && r.h.kind == StringObject && r.h.props == StringTable() && r.h.ChainOk()
        && r.h.text == old(code.target.ToString(env))
    {
      match code
      case NoCode =>
        r := NullV;
      case UserCode(id) =>
        r := env.userFunction(id, args);
      case Bound(t, m) =>
        if m == SetTimeMember {
          r := t.SetTimeFromArgs(args);
        } else if Mutates(m) {
          r := t.RunArrayMember(m, args);
        } else {
          r := t.RunReadMember(m, args, env);
        }
    }

    /**
      `JFunction::Call`: Null without a body; a caller-supplied body gives the
      environment's result; a synthesized built-in runs on the object it was
      made for (`call` forwards to that function's own `Call`).
     */
    method Call(args: seq<Value>, env: Env) returns (r: Value)
      requires ChainOk()
      modifies CallFootprint()
      decreases callDepth
      ensures Callee().code == NoCode ==> r == NullV
      ensures Callee().code.UserCode? ==> r == env.userFunction(Callee().code.id, args)
      ensures Callee().code.Bound? && Callee().code.member == IndexOfMember ==>
        r == Int32V(old(IndexOfResult(Callee().code.target.text, args, env)))
      ensures Callee().code.Bound? && Callee().code.member == LastIndexOfMember ==>
        r == Int32V(old(LastIndexOfResult(Callee().code.target.text, args, env)))
      ensures Callee().code.Bound? && Callee().code.member == ConcatMember ==>
        && r.StringV? && r.h != null && fresh(r.h) && r.h.kind == StringObject && r.h.props == StringTable() && r.h.ChainOk()
        && r.h.text == old(ConcatText(Callee().code.target.text, args, env))
      ensures Callee().code.Bound? && Callee().code.member == PushMember ==>
        && Callee().code.target.elems == old(Callee().code.target.elems) + args
        && Callee().code.target.props == old(Callee().code.target.props) + IndexTable(|Callee().code.target.elems|)
        && r == UInt32V(ToUInt32(|Callee().code.target.elems|))
      ensures Callee().code.Bound? && Callee().code.member == UnshiftMember ==>
        && Callee().code.target.elems == args + old(Callee().code.target.elems)
        && Callee().code.target.props == old(Callee().code.target.props) + IndexTable(|Callee().code.target.elems|)
        && r == UInt32V(ToUInt32(|Callee().code.target.elems|))
      ensures Callee().code.Bound? && Callee().code.member == PopMember ==>
        if old(Callee().code.target.elems) == [] then
          r == NullV && Callee().code.target.elems == [] && Callee().code.target.props == old(Callee().code.target.props)
        else
          && r == old(Callee().code.target.elems)[|old(Callee().code.target.elems)| - 1]
          && Callee().code.target.elems == old(Callee().code.target.elems)[..|old(Callee().code.target.elems)| - 1]
          && Callee().code.target.props == old(Callee().code.target.props) + IndexTable(|Callee().code.target.elems|)
      ensures Callee().code.Bound? && Callee().code.member == ShiftMember ==>
        if old(Callee().code.target.elems) == [] then
          r == NullV && Callee().code.target.elems == [] && Callee().code.target.props == old(Callee().code.target.props)
        else
          && r == old(Callee().code.target.elems)[0]
          && Callee().code.target.elems == old(Callee().code.target.elems)[1..]
          && Callee().code.target.props == old(Callee().code.target.props) + IndexTable(|Callee().code.target.elems|)
      ensures Callee().code.Bound? && Callee().code.member == SpliceMember ==>
        && r.ArrayV? && r.h != null && fresh(r.h) && r.h.kind == ArrayObject && r.h.props == ArrayTable(0)
        && r.h.code == NoCode && r.h.ChainOk()
        && r.h.elems == SpliceOf(old(Callee().code.target.elems), args).removed
        && Callee().code.target.elems == SpliceOf(old(Callee().code.target.elems), args).remaining
        && Callee().code.target.props == if |args| == 0 then old(Callee().code.target.props)
                                         else old(Callee().code.target.props) + IndexTable(|Callee().code.target.elems|)
      ensures Callee().code.Bound? && Callee().code.member == SliceMember ==>
        && r.ArrayV? && r.h != null && fresh(r.h) && r.h.kind == ArrayObject
        && r.h.elems == SliceOf(old(Callee().code.target.elems), args) && r.h.props == ArrayTable(|r.h.elems|)
        && r.h.code == NoCode && r.h.ChainOk()
        && Callee().code.target.elems == old(Callee().code.target.elems)
      ensures Callee().code.Bound? && Callee().code.member == GetTimeMember ==>
        r == UInt64V(ToUInt64(old(Callee().code.target.GetTime())))
      ensures Callee().code.Bound? && Callee().code.member == SetTimeMember ==>
        && Callee().code.target.seconds == (match SetTimeArg(args) case Some(t) => Quot1000(t) case None => old(Callee().code.target.seconds))
        && r == UInt64V(ToUInt64(Callee().code.target.GetTime()))
      ensures Callee().code.Bound? && Mutates(Callee().code.member) && Callee().code.member != SetTimeMember ==>
        && Callee().code.target.text == old(Callee().code.target.text) && Callee().code.target.name == old(Callee().code.target.name)
        && Callee().code.target.seconds == old(Callee().code.target.seconds)
      ensures Callee().code.Bound? && Callee().code.member == SetTimeMember ==>
        && Callee().code.target.props == old(Callee().code.target.props) && Callee().code.target.elems == old(Callee().code.target.elems)
        && Callee().code.target.text == old(Callee().code.target.text) && Callee().code.target.name == old(Callee().code.target.name)
      ensures Callee().code.Bound? && Callee().code.member == ToStringMember ==>
        && r.StringV? && r.h != null && fresh(r.h) && r.h.kind == StringObject && r.h.props == StringTable() && r.h.ChainOk()
        && r.h.text == old(Callee().code.target.ToString(env))
    {
      if code.Bound? && code.member == CallMember {
        r := code.target.Call(args, env);
      } else {
        assert Callee() == this;
        r := Invoke(args, env);
      }
    }

    // -------------------------------------------------------------------
    // JDate
    // -------------------------------------------------------------------

    /** `JDate::getTime`: milliseconds since the epoch. */
    function GetTime(): (ms: int)
      reads this
      ensures ms % 1000 == 0
    {
      seconds * 1000
    }

    /** `JDate::setTime`: keeps whole seconds, the timestamp divided by 1000 toward zero. */
    method SetTime(t: int64)
      modifies this`seconds
      ensures t >= 0 ==> 0 <= GetTime() <= t < GetTime() + 1000
      ensures t < 0 ==> GetTime() - 1000 < t <= GetTime() <= 0
      ensures seconds == Quot1000(t)
    {
      seconds := Quot1000(t);
    }

    /** The `setTime` member: only a uint64 or int32 first argument sets the time. */
    method SetTimeFromArgs(args: seq<Value>) returns (r: Value)
      modifies this`seconds
      ensures seconds == match SetTimeArg(args) case Some(t) => Quot1000(t) case None => old(seconds)
      ensures r == UInt64V(ToUInt64(GetTime()))
      ensures props == old(props) && elems == old(elems) && text == old(text) && name == old(name)
    {
      if SetTimeArg(args).Some? {
        SetTime(SetTimeArg(args).value);
      }
      r := UInt64V(ToUInt64(GetTime()));
    }
  }

  // ---------------------------------------------------------------------
  // utils::def_prop_*
  // ---------------------------------------------------------------------

  /** `utils::def_prop_rw`: getter and setter, every flag true. */
  method DefPropRw(obj: JObject, pname: string, g: Option<Getter>, s: Option<Setter>)
    modifies obj`props
    ensures obj.props == old(obj.props)[pname := RwDescriptor(g, s)]
  {
    var _ := obj.DefineProperty(pname, RwDescriptor(g, s));
  }

  /** `utils::def_prop_ro`: getter only, not writable, enumerable and configurable. */
  method DefPropRo(obj: JObject, pname: string, g: Option<Getter>)
    modifies obj`props
    ensures obj.props == old(obj.props)[pname := RoDescriptor(g)]
  {
    var _ := obj.DefineProperty(pname, RoDescriptor(g));
  }

  /** `utils::def_prop_ex`: accessors and flags verbatim. */
  method DefPropEx(obj: JObject, pname: string, g: Option<Getter>, s: Option<Setter>,
                   writable: bool, enumerable: bool, configurable: bool)
    modifies obj`props
    ensures obj.props == old(obj.props)[pname := ExDescriptor(g, s, writable, enumerable, configurable)]
  {
    var _ := obj.DefineProperty(pname, ExDescriptor(g, s, writable, enumerable, configurable));
  }

  /** `utils::def_prop_val`: a stored value and flags, no accessors. */
  method DefPropVal(obj: JObject, pname: string, v: Value, writable: bool, enumerable: bool, configurable: bool)
    modifies obj`props
    ensures obj.props == old(obj.props)[pname := ValDescriptor(v, writable, enumerable, configurable)]
  {
    var _ := obj.DefineProperty(pname, ValDescriptor(v, writable, enumerable, configurable));
  }
}
