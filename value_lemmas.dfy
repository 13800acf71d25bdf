/**
  Properties of values: the type tags, truthiness against rendering, and the
  JString members `concat`, `indexOf` and `lastIndexOf` on rendered arguments.
 */
module ValueLemmas {
  import opened Wrappers
  import opened Numeric
  import opened JObjects
  import Text

  /** Every `ValueType` tag is the type of some value. */
  lemma EveryTypeOccurs(t: ValueType)
    ensures exists v :: GetValueType(v) == t
  {
    var v := match t
      case NullType => NullV
      case BooleanType => BoolV(false)
      case Int32Type => Int32V(0)
      case UInt32Type => UInt32V(0)
      case UInt64Type => UInt64V(0)
      case DoubleType => DoubleV(0)
      case StringType => StringV(null)
      case ArrayType => ArrayV(null)
      case ObjectType => ObjectV(null)
      case FunctionType => FunctionV(null)
      case DateType => DateV(null)
    ;
    assert GetValueType(v) == t;
  }

  /** Two values have the same type exactly when they are the same alternative. */
  lemma SameTypeSameAlternative(v: Value, w: Value)
    ensures GetValueType(v) == GetValueType(w) <==> VariantIndex(v) == VariantIndex(w)
  {
  }

  /** `isNumber` holds exactly for the four numeric tags. */
  lemma IsNumberByType(v: Value)
    ensures IsNumber(v) <==> GetValueType(v) in {Int32Type, UInt32Type, UInt64Type, DoubleType}
  {
  }

  /** An integer is truthy exactly when it does not render as "0". */
  lemma IntegerTruthByRendering(v: Value, env: Env)
    requires v.Int32V? || v.UInt32V? || v.UInt64V?
    ensures ToBoolean(v) <==> Render(v, env) != "0"
  {
    match v
    case Int32V(i) => DecimalZero(i);
    case UInt32V(u) => DecimalZero(u);
    case UInt64V(w) => DecimalZero(w);
  }

  /** A null handle renders as "null" and is falsy; a non-null handle other than a string is truthy. */
  lemma NullHandles(v: Value, env: Env)
    requires v.IsHandle()
    ensures v.h == null ==> Render(v, env) == "null" && !ToBoolean(v)
    ensures v.h != null && !v.StringV? ==> ToBoolean(v)
  {
  }

  /** A non-null string handle renders as its text. */
  lemma RenderString(h: JObject, env: Env)
    requires h.kind == StringObject
    ensures Render(StringV(h), env) == h.text
  {
    assert Render(StringV(h), env) == ObjectText(h, env.renderDepth, env);
  }

  /** A string handle is truthy exactly when it renders as a non-empty text. */
  lemma StringTruthByRendering(v: Value, env: Env)
    requires v.StringV? && v.h != null && v.h.kind == StringObject
    ensures ToBoolean(v) <==> Render(v, env) != ""
  {
    assert Render(v, env) == ObjectText(v.h, env.renderDepth, env) == v.h.text;
  }

  /** The renderings of the arguments a + b are those of a followed by those of b. */
  lemma {:induction false} RenderedArgsAppend(a: seq<Value>, b: seq<Value>, env: Env)
    ensures RenderedArgs(a + b, env) == RenderedArgs(a, env) + RenderedArgs(b, env)
    decreases |b|
  {
    if |b| == 0 {
      assert a + b == a;
    } else {
      var b', last := b[..|b| - 1], RenderAt(b[|b| - 1], env.renderDepth, env);
      assert (a + b)[..|a + b| - 1] == a + b';
      assert (a + b)[|a + b| - 1] == b[|b| - 1];
      calc {
        RenderedArgs(a + b, env);
        RenderedArgs(a + b', env) + last;
        { RenderedArgsAppend(a, b', env); }
        (RenderedArgs(a, env) + RenderedArgs(b', env)) + last;
        RenderedArgs(a, env) + (RenderedArgs(b', env) + last);
        RenderedArgs(a, env) + RenderedArgs(b, env);
      }
    }
  }

  /** Concatenating in two calls is concatenating all the arguments in one. */
  lemma ConcatInSteps(text: string, a: seq<Value>, b: seq<Value>, env: Env)
    ensures ConcatText(ConcatText(text, a, env), b, env) == ConcatText(text, a + b, env)
  {
    RenderedArgsAppend(a, b, env);
  }

  /** `concat` with one argument appends its rendering. */
  lemma ConcatOne(text: string, a: Value, env: Env)
    ensures ConcatText(text, [a], env) == text + Render(a, env)
  {
    assert [a][..0] == [];
    assert RenderedArgs([a], env) == RenderedArgs([], env) + Render(a, env);
  }

  /**
    `indexOf` of an argument just appended by `concat` finds it, at the end
    of the original text or earlier.
   */
  lemma IndexOfAppended(text: string, a: Value, env: Env)
    requires |text| + |Render(a, env)| < TWO_31
    ensures 0 <= IndexOfResult(ConcatText(text, [a], env), [a], env) <= |text|
    ensures LastIndexOfResult(ConcatText(text, [a], env), [a], env) == |text|
  {
    ConcatOne(text, a, env);
    var hay := text + Render(a, env);
    var needle := Render(a, env);
    assert hay[|text|..|text| + |needle|] == needle;
    assert Text.OccursAt(hay, needle, |text|);
  }

  /** `indexOf` and `lastIndexOf` both miss or both hit, the first no later than the last. */
  lemma IndexOfBeforeLastIndexOf(text: string, args: seq<Value>, env: Env)
    requires |text| < TWO_31
    ensures IndexOfResult(text, args, env) == -1 <==> LastIndexOfResult(text, args, env) == -1
    ensures IndexOfResult(text, args, env) <= LastIndexOfResult(text, args, env)
  {
    if |args| > 0 {
      Text.FindBeforeRFind(text, Render(args[0], env));
    }
  }

  /** An argument rendering as the empty text is found at 0 by `indexOf` and at the end by `lastIndexOf`. */
  lemma EmptyNeedleSearch(text: string, args: seq<Value>, env: Env)
    requires |args| > 0 && Render(args[0], env) == "" && |text| < TWO_31
    ensures IndexOfResult(text, args, env) == 0
    ensures LastIndexOfResult(text, args, env) == |text|
  {
    Text.EmptyNeedle(text);
  }

  /** The test strings: "World" is found at 6 in "Hello World", "zzz" nowhere. */
  lemma HelloWorldSearch(a: Value, b: Value, env: Env)
    requires Render(a, env) == "World" && Render(b, env) == "zzz"
    ensures IndexOfResult("Hello World", [a], env) == 6
    ensures IndexOfResult("Hello World", [b], env) == -1
  {
    Text.WorldAtSix("Hello World", "World");
    Text.NoZzz();
  }

  /** The array [1, 2, 3] renders as "1,2,3"; nested deeper than the rendering depth, it renders as "". */
  lemma ArrayRendering(h: JObject, env: Env)
    requires h.kind == ArrayObject && h.elems == [Int32V(1), Int32V(2), Int32V(3)]
    ensures env.renderDepth > 0 ==> h.ToString(env) == "1,2,3"
    ensures ObjectText(h, 0, env) == ""
  {
    var es := h.elems;
    var d := env.renderDepth;
    if d > 0 {
      assert ToDecimal(1) == "1" && ToDecimal(2) == "2" && ToDecimal(3) == "3";
      assert JoinRendered(es[..1], d - 1, env) == "1";
      assert es[..2][..1] == es[..1];
      assert JoinRendered(es[..2], d - 1, env) == "1,2";
      assert es[..3] == es;
      assert JoinRendered(es, d - 1, env) == JoinRendered(es[..2], d - 1, env) + "," + "3";
    }
  }

  /** `JArray::toString` is the comma join, from the front, of the elements' renderings. */
  lemma {:induction false} JoinRenderedIsJoin(es: seq<Value>, depth: nat, env: Env)
    ensures JoinRendered(es, depth, env) == Text.Join(Renderings(es, depth, env))
    decreases |es|
  {
    var rs := Renderings(es, depth, env);
    if |es| == 1 {
      assert rs == [RenderAt(es[0], depth, env)];
    } else if |es| >= 2 {
      var init := es[..|es| - 1];
      var x := RenderAt(es[|es| - 1], depth, env);
      JoinRenderedIsJoin(init, depth, env);
      assert rs == Renderings(init, depth, env) + [x];
      Text.JoinAppend(Renderings(init, depth, env), [x]);
    }
  }

  /** Entry i of the renderings is the rendering of element i. */
  lemma {:induction false} RenderingsAt(es: seq<Value>, i: nat, depth: nat, env: Env)
    requires i < |es|
    ensures Renderings(es, depth, env)[i] == RenderAt(es[i], depth, env)
    decreases |es|
  {
    if i < |es| - 1 {
      var init := es[..|es| - 1];
      RenderingsAt(init, i, depth, env);
      assert init[i] == es[i];
    }
  }

  /** The renderings of a + b are those of a followed by those of b. */
  lemma {:induction false} RenderingsAppend(a: seq<Value>, b: seq<Value>, depth: nat, env: Env)
    ensures Renderings(a + b, depth, env) == Renderings(a, depth, env) + Renderings(b, depth, env)
    decreases |b|
  {
    if |b| == 0 {
      assert a + b == a;
    } else {
      var b', last := b[..|b| - 1], RenderAt(b[|b| - 1], depth, env);
      assert (a + b)[..|a + b| - 1] == a + b';
      assert (a + b)[|a + b| - 1] == b[|b| - 1];
      calc {
        Renderings(a + b, depth, env);
        Renderings(a + b', depth, env) + [last];
        { RenderingsAppend(a, b', depth, env); }
        (Renderings(a, depth, env) + Renderings(b', depth, env)) + [last];
        Renderings(a, depth, env) + (Renderings(b', depth, env) + [last]);
        Renderings(a, depth, env) + Renderings(b, depth, env);
      }
    }
  }

  /** Rendering the elements of a + b is rendering those of a, a comma, then those of b. */
  lemma JoinRenderedAppend(a: seq<Value>, b: seq<Value>, depth: nat, env: Env)
    requires |a| > 0 && |b| > 0
    ensures JoinRendered(a + b, depth, env) == JoinRendered(a, depth, env) + "," + JoinRendered(b, depth, env)
  {
    JoinRenderedIsJoin(a + b, depth, env);
    JoinRenderedIsJoin(a, depth, env);
    JoinRenderedIsJoin(b, depth, env);
    RenderingsAppend(a, b, depth, env);
    Text.JoinAppend(Renderings(a, depth, env), Renderings(b, depth, env));
  }

  /** Each class's `toString` and `getType`, and the size that the "length" getters report. */
  lemma ObjectByKind(o: JObject, env: Env)
    ensures o.kind == PlainObject ==> o.ToString(env) == "[object Object]" && o.GetType() == ObjectType
    ensures o.kind == StringObject ==> o.ToString(env) == o.text && o.GetType() == StringType
    ensures o.kind == FunctionObject ==> o.ToString(env) == "function " + o.name + "() { [native code] }" && o.GetType() == FunctionType
    ensures o.kind == DateObject ==> o.ToString(env) == env.formatDate(o.seconds) && o.GetType() == DateType
    ensures o.kind == ArrayObject ==> o.GetType() == ArrayType
    ensures o.ComputedValue(StringLength, env) == UInt32V(ToUInt32(o.TextSize()))
    ensures o.ComputedValue(ArrayLength, env) == UInt32V(ToUInt32(o.ElementCount()))
    ensures o.TextEmpty() <==> o.TextSize() == 0
    ensures o.ElementsEmpty() <==> o.ElementCount() == 0
  {
  }

  /** Distinct classes have distinct `getType` tags. */
  lemma KindTypeInjective(a: Kind, b: Kind)
    ensures KindType(a) == KindType(b) ==> a == b
  {
  }
}
