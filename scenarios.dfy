/**
  Whole interactions with objects: each method builds the objects the
  repository's test program builds, drives them through `getProperty` and
  the synthesized functions, and states what the reads and calls return.
 */
module Scenarios {
  import opened Wrappers
  import opened Numeric
  import opened JObjects
  import TableLemmas
  import ValueLemmas
  import ArrayLemmas

  /** Reading "length" of an array whose "length" descriptor is the constructor's reads the size. */
  method ReadLength(arr: JObject, env: Env) returns (v: Value)
    requires arr.kind == ArrayObject && arr.ChainOk()
    requires "length" in arr.props && arr.props["length"] == ArrayLengthDescriptor
    ensures v == UInt32V(ToUInt32(|arr.elems|))
  {
    v := arr.GetProperty("length", env);
  }

  /** Reading "push" and calling the result appends the arguments. */
  method PushThrough(arr: JObject, args: seq<Value>, env: Env) returns (r: Value)
    requires arr.kind == ArrayObject && arr.ChainOk()
    modifies arr
    ensures arr.elems == old(arr.elems) + args && arr.props == old(arr.props) + IndexTable(|arr.elems|)
    ensures r == UInt32V(ToUInt32(|arr.elems|))
  {
    var push := arr.GetProperty("push", env);
    assert push.h.CallFootprint() == {arr};
    r := push.h.Call(args, env);
  }

  /** Reading "pop" and calling the result removes the last element of a non-empty array. */
  method PopThrough(arr: JObject, env: Env) returns (r: Value)
    requires arr.kind == ArrayObject && arr.ChainOk() && arr.elems != []
    modifies arr
    ensures r == old(arr.elems)[|old(arr.elems)| - 1]
    ensures arr.elems == old(arr.elems)[..|old(arr.elems)| - 1] && arr.props == old(arr.props) + IndexTable(|arr.elems|)
  {
    var pop := arr.GetProperty("pop", env);
    assert pop.h.CallFootprint() == {arr};
    r := pop.h.Call([], env);
  }

  /**
    An empty array: "length" reads 0; `push(1, 2, 3)` makes it 3; `pop()`
    returns 3 and "length" then reads 2.
   */
  method ArrayPushPop(env: Env) returns (len0: Value, len1: Value, popped: Value, len2: Value, rest: seq<Value>)
    ensures len0 == UInt32V(0) && len1 == UInt32V(3) && popped == Int32V(3) && len2 == UInt32V(2)
    ensures rest == [Int32V(1), Int32V(2)]
  {
    var arr := new JObject.Sized(0);
    len0 := ReadLength(arr, env);
    var _ := PushThrough(arr, [Int32V(1), Int32V(2), Int32V(3)], env);
    TableLemmas.LengthIsNoIndex(3);
    assert arr.props["length"] == ArrayLengthDescriptor;
    len1 := ReadLength(arr, env);
    popped := PopThrough(arr, env);
    TableLemmas.LengthIsNoIndex(2);
    assert arr.props["length"] == ArrayLengthDescriptor;
    len2 := ReadLength(arr, env);
    rest := arr.elems;
  }

  /** Reading "concat" on a string and calling the result gives a fresh string of the concatenation. */
  method ConcatThrough(str: JObject, args: seq<Value>, env: Env) returns (r: Value)
    requires str.kind == StringObject && str.ChainOk()
    ensures r.StringV? && r.h != null && fresh(r.h) && r.h.kind == StringObject && r.h.ChainOk()
    ensures r.h.text == old(ConcatText(str.text, args, env))
  {
    var concat := str.GetProperty("concat", env);
    r := concat.h.Call(args, env);
  }

  /** Reading "indexOf" on a string and calling the result searches the string. */
  method IndexOfThrough(str: JObject, args: seq<Value>, env: Env) returns (r: Value)
    requires str.kind == StringObject && str.ChainOk()
    ensures r == Int32V(IndexOfResult(str.text, args, env))
  {
    var indexOf := str.GetProperty("indexOf", env);
    r := indexOf.h.Call(args, env);
  }

  /** The string " - 测试", as its UTF-8 bytes: one char per byte. */
  const TestSuffix: string := " - \U{e6}\U{b5}\U{8b}\U{e8}\U{af}\U{95}"

  /**
    "Hello World" has "length" 11, and its `concat` with the string " - 测试"
    gives "Hello World" followed by that string's bytes.
   */
  method HelloConcat(env: Env) returns (length: Value, joined: JObject)
    ensures length == UInt32V(11)
    ensures joined.kind == StringObject && joined.text == "Hello World" + TestSuffix && |joined.text| == 20
    ensures joined.ChainOk()
  {
    var str := new JObject.FromString("Hello World");
    length := str.GetProperty("length", env);
    var suffix := new JObject.FromString(TestSuffix);
    ValueLemmas.ConcatOne("Hello World", StringV(suffix), env);
    ValueLemmas.RenderString(suffix, env);
    var r := ConcatThrough(str, [StringV(suffix)], env);
    joined := r.h;
  }

  /** On "Hello World", `indexOf("World")` is 6 and `indexOf("zzz")` is -1. */
  method HelloWorldIndexOf(str: JObject, env: Env) returns (found: Value, missing: Value)
    requires str.kind == StringObject && str.text == "Hello World" && str.ChainOk()
    ensures found == Int32V(6) && missing == Int32V(-1)
  {
    var needle := new JObject.FromString("World");
    var absent := new JObject.FromString("zzz");
    ValueLemmas.RenderString(needle, env);
    ValueLemmas.RenderString(absent, env);
    ValueLemmas.HelloWorldSearch(StringV(needle), StringV(absent), env);
    found := IndexOfThrough(str, [StringV(needle)], env);
    missing := IndexOfThrough(str, [StringV(absent)], env);
  }

  /**
    Reading "toString" twice gives two distinct synthesized functions, and
    calling each yields the same rendering of the object.
   */
  method ToStringTwice(o: JObject, env: Env) returns (f: Value, g: Value, s1: string, s2: string)
    requires o.ChainOk() && "toString" !in o.props
    ensures f.FunctionV? && g.FunctionV? && f.h != null && g.h != null && f.h != g.h
    ensures s1 == s2
  {
    f := o.GetProperty("toString", env);
    g := o.GetProperty("toString", env);
    var r1 := f.h.Call([], env);
    var r2 := g.h.Call([], env);
    s1 := r1.h.text;
    s2 := r2.h.text;
  }

  /**
    A non-writable, non-configurable value: writing it fails and the value
    reads back unchanged; deleting it fails and it stays stored.
   */
  method ReadOnlyProperty(v: Value, w: Value, env: Env) returns (setOk: bool, read: Value, deleteOk: bool, stillThere: bool)
    ensures !setOk && read == v && !deleteOk && stillThere
  {
    var obj := new JObject.Plain();
    var _ := obj.DefineProperty("readonly", ValDescriptor(v, false, true, false));
    setOk := obj.SetProperty("readonly", w);
    read := obj.GetProperty("readonly", env);
    deleteOk := obj.DeleteProperty("readonly");
    stillThere := obj.HasProperty("readonly");
  }

  /**
    A function's "name" reads a fresh string holding the current name, also
    after `setName`; that string is a JString whose "length" reads its size.
   */
  method FunctionName(env: Env) returns (before: string, nameLength: Value, after: string)
    ensures before == "add" && nameLength == UInt32V(3) && after == "sum"
  {
    var f := new JObject.Function("add", Some(0));
    TableLemmas.FunctionTableAccess();
    var n1 := f.GetProperty("name", env);
    before := n1.h.text;
    nameLength := n1.h.GetProperty("length", env);
    f.SetName("sum");
    var n2 := f.GetProperty("name", env);
    after := n2.h.text;
  }

  /** Reading "call" on a function and calling the result runs whatever the function itself runs. */
  method CallThrough(f: JObject, args: seq<Value>, env: Env) returns (r: Value)
    requires f.kind == FunctionObject && f.ChainOk()
    modifies f.CallFootprint()
    ensures f.Callee().code == NoCode ==> r == NullV
    ensures f.Callee().code.UserCode? ==> r == env.userFunction(f.Callee().code.id, args)
  {
    var call := f.GetProperty("call", env);
    r := call.h.Call(args, env);
  }

  /**
    `add.call(10, 20)` gives what the body of `add` gives for those arguments;
    `call` on a function without a body gives Null.
   */
  method CallScenario(env: Env) returns (sum: Value, nothing: Value)
    ensures sum == env.userFunction(7, [Int32V(10), Int32V(20)])
    ensures nothing == NullV
  {
    var add := new JObject.Function("add", Some(7));
    sum := CallThrough(add, [Int32V(10), Int32V(20)], env);
    var empty := new JObject.Function("nothing", None);
    nothing := CallThrough(empty, [], env);
  }

  /** The arrays `slice()` and `splice(0)` return are objects of their own: their "length" reads their size. */
  method SliceSpliceResults(env: Env) returns (sliceLen: Value, spliceLen: Value)
    ensures sliceLen == UInt32V(3) && spliceLen == UInt32V(3)
  {
    var a := new JObject.FromValues([Int32V(1), Int32V(2), Int32V(3)]);
    ArrayLemmas.SliceWhole(a.elems);
    var copy := a.Slice([]);
    TableLemmas.LengthIsNoIndex(3);
    sliceLen := ReadLength(copy.h, env);
    ArrayLemmas.SpliceTruncates(a.elems, 0);
    var removed := a.Splice([Int32V(0)]);
    TableLemmas.LengthIsNoIndex(0);
    spliceLen := ReadLength(removed.h, env);
  }

  /** Reading "getTime" on a date and calling the result gives the time in milliseconds as a uint64. */
  method GetTimeThrough(date: JObject, env: Env) returns (r: Value)
    requires date.kind == DateObject && date.ChainOk()
    ensures r == UInt64V(ToUInt64(date.GetTime()))
  {
    var getTime := date.GetProperty("getTime", env);
    r := getTime.h.Call([], env);
  }

  /** Reading "setTime" on a date and calling the result sets whole seconds and returns the new time. */
  method SetTimeThrough(date: JObject, args: seq<Value>, env: Env) returns (r: Value)
    requires date.kind == DateObject && date.ChainOk()
    modifies date
    ensures date.seconds == match SetTimeArg(args) case Some(t) => Quot1000(t) case None => old(date.seconds)
    ensures r == UInt64V(ToUInt64(date.GetTime()))
  {
    var setTime := date.GetProperty("setTime", env);
    assert setTime.h.CallFootprint() == {date};
    r := setTime.h.Call(args, env);
  }

  /**
    Timestamps keep whole seconds, truncated toward zero: 1234567 reads back
    as 1234000 and -1500 as -1000, which the "getTime" member reports as the
    uint64 2^64 - 1000. A uint64 argument of 2^64 - 1 is the int64 -1 and
    sets the time to 0; a bool argument is ignored.
   */
  method DateTimes(env: Env) returns (ms: int, negative: Value, reset: Value, ignored: Value)
    ensures ms == 1234000
    ensures negative == UInt64V(TWO_64 - 1000)
    ensures reset == UInt64V(0) && ignored == UInt64V(0)
  {
    var d := new JObject.FromTimestamp(1234567);
    ms := d.GetTime();
    var e := new JObject.FromTimestamp(-1500);
    negative := GetTimeThrough(e, env);
    reset := SetTimeThrough(e, [UInt64V(TWO_64 - 1)], env);
    ignored := SetTimeThrough(e, [BoolV(true)], env);
  }
}
