/**
  Properties of the stored property table: definition, deletion, the three
  write outcomes, read resolution order and enumeration, including the
  tables the constructors install.
 */
module TableLemmas {
  import opened Wrappers
  import opened Numeric
  import opened JObjects

  // ---------------------------------------------------------------------
  // Read resolution
  // ---------------------------------------------------------------------

  /** Defining a name the kind does not claim, then reading it, yields the getter if any, else the value. */
  lemma DefineThenResolve(k: Kind, props: map<string, Descriptor>, name: string, d: Descriptor)
    requires BuiltinMember(k, name).None?
    ensures Resolve(k, props[name := d], name) == if d.getter.Some? then ByGetter(d.getter.value) else Stored(d.value)
  {
  }

  /** A kind's built-in names are answered before the table: no stored descriptor changes them. */
  lemma BuiltinIgnoresTable(k: Kind, props: map<string, Descriptor>, name: string)
    requires BuiltinMember(k, name).Some?
    ensures Resolve(k, props, name) == Synthesized(BuiltinMember(k, name).value)
    ensures Resolve(k, props, name) == Resolve(k, map[], name)
  {
  }

  /** A stored "push" on an array never changes what reading "push" returns. */
  lemma StoredPushIgnored(props: map<string, Descriptor>, d: Descriptor)
    ensures Resolve(ArrayObject, props["push" := d], "push") == Synthesized(PushMember)
  {
  }

  /** "toString" is synthesized exactly when it is not stored; a stored one wins. */
  lemma ToStringFallback(k: Kind, props: map<string, Descriptor>)
    ensures Resolve(k, props, "toString") == Synthesized(ToStringMember) <==> "toString" !in props
  {
  }

  /** Which names read as Null: neither built-in, stored, nor "toString". */
  lemma AbsentIffUnknown(k: Kind, props: map<string, Descriptor>, name: string)
    ensures Resolve(k, props, name) == Absent <==>
      BuiltinMember(k, name).None? && name !in props && name != "toString"
  {
  }

  // ---------------------------------------------------------------------
  // Writes
  // ---------------------------------------------------------------------

  /** A setter always runs and the write succeeds, whatever `writable` says; the table is untouched. */
  lemma SetterIgnoresWritable(props: map<string, Descriptor>, name: string, v: Value)
    requires name in props && props[name].setter.Some?
    ensures WriteStepOf(props, name) == RunSetter(props[name].setter.value)
    ensures Written(props, name, v) == props
  {
  }

  /** Without a setter, a stored name is overwritten iff writable; a refused write changes nothing. */
  lemma StoredWriteIffWritable(props: map<string, Descriptor>, name: string, v: Value)
    requires name in props && props[name].setter.None?
    ensures WriteStepOf(props, name) == Overwrite <==> props[name].writable
    ensures WriteStepOf(props, name) == Reject <==> !props[name].writable
    ensures !props[name].writable ==> Written(props, name, v) == props
    ensures props[name].writable ==> Written(props, name, v) == props[name := props[name].(value := v)]
  {
  }

  /**
    A write to a non-writable, setter-less name is refused and a later read
    sees the same thing as before.
   */
  lemma ReadOnlyStaysPut(k: Kind, props: map<string, Descriptor>, name: string, v: Value)
    requires name in props && !props[name].writable && props[name].setter.None?
    ensures WriteStepOf(props, name).Reject?
    ensures Resolve(k, Written(props, name, v), name) == Resolve(k, props, name)
  {
  }

  /** Writing an unstored name inserts an all-true plain descriptor that reads back as the value. */
  lemma InsertThenRead(k: Kind, props: map<string, Descriptor>, name: string, v: Value)
    requires name !in props && BuiltinMember(k, name).None?
    ensures WriteStepOf(props, name) == Insert
    ensures Written(props, name, v)[name] == PlainDescriptor(v)
    ensures Resolve(k, Written(props, name, v), name) == Stored(v)
    ensures EnumerableNames(Written(props, name, v)) == EnumerableNames(props) + {name}
  {
  }

  /**
    An overwrite replaces only the stored value: a non-built-in name without
    a getter reads back the new value, one with a getter still reads through it.
   */
  lemma OverwriteThenRead(k: Kind, props: map<string, Descriptor>, name: string, v: Value)
    requires WriteStepOf(props, name) == Overwrite && BuiltinMember(k, name).None?
    ensures props[name].getter.None? ==> Resolve(k, Written(props, name, v), name) == Stored(v)
    ensures props[name].getter.Some? ==> Resolve(k, Written(props, name, v), name) == Resolve(k, props, name)
  {
  }

  /** A write touches no other name. */
  lemma WriteKeepsOtherNames(props: map<string, Descriptor>, name: string, v: Value, other: string)
    requires other != name
    ensures other in Written(props, name, v) <==> other in props
    ensures other in props ==> Written(props, name, v)[other] == props[other]
  {
  }

  // ---------------------------------------------------------------------
  // Deletion and definition
  // ---------------------------------------------------------------------

  /** A non-configurable name cannot be deleted and stays stored. */
  lemma NonConfigurableSurvivesDelete(props: map<string, Descriptor>, name: string)
    requires name in props && !props[name].configurable
    ensures Deleted(props, name) == (props, false)
    ensures name in Deleted(props, name).0
  {
  }

  /** Deletion removes only the named key. */
  lemma DeleteKeepsOtherNames(props: map<string, Descriptor>, name: string, other: string)
    requires other != name
    ensures other in Deleted(props, name).0 <==> other in props
    ensures other in props ==> Deleted(props, name).0[other] == props[other]
  {
  }

  /** Definition overrides even a non-configurable entry; a configurable definition can then be deleted. */
  lemma DefineThenDelete(props: map<string, Descriptor>, name: string, d: Descriptor)
    ensures (props[name := d])[name] == d
    ensures Deleted(props[name := d], name).1 <==> d.configurable
    ensures d.configurable ==> Deleted(props[name := d], name).0 == props - {name}
  {
  }

  // ---------------------------------------------------------------------
  // The `utils::def_prop_*` descriptors
  // ---------------------------------------------------------------------

  /** A `def_prop_rw` property: a write runs its setter; a read runs its getter unless the kind claims the name. */
  lemma RwDescriptorAccess(k: Kind, props: map<string, Descriptor>, name: string, g: Getter, s: Setter)
    requires BuiltinMember(k, name).None?
    ensures WriteStepOf(props[name := RwDescriptor(Some(g), Some(s))], name) == RunSetter(s)
    ensures Resolve(k, props[name := RwDescriptor(Some(g), Some(s))], name) == ByGetter(g)
    ensures name in EnumerableNames(props[name := RwDescriptor(Some(g), Some(s))])
  {
  }

  /** A `def_prop_ro` property refuses every write and still reads through its getter. */
  lemma RoDescriptorRefusesWrites(k: Kind, props: map<string, Descriptor>, name: string, g: Getter, v: Value)
    requires BuiltinMember(k, name).None?
    ensures WriteStepOf(props[name := RoDescriptor(Some(g))], name) == Reject
    ensures Written(props[name := RoDescriptor(Some(g))], name, v) == props[name := RoDescriptor(Some(g))]
    ensures Resolve(k, props[name := RoDescriptor(Some(g))], name) == ByGetter(g)
    ensures Deleted(props[name := RoDescriptor(Some(g))], name).1
  {
  }

  /** A `def_prop_val` property reads as its value, and a write succeeds iff it is writable. */
  lemma ValDescriptorAccess(k: Kind, props: map<string, Descriptor>, name: string, v: Value,
                            w: bool, e: bool, c: bool, v2: Value)
    requires BuiltinMember(k, name).None?
    ensures Resolve(k, props[name := ValDescriptor(v, w, e, c)], name) == Stored(v)
    ensures WriteStepOf(props[name := ValDescriptor(v, w, e, c)], name) == if w then Overwrite else Reject
    ensures Resolve(k, Written(props[name := ValDescriptor(v, w, e, c)], name, v2), name) == Stored(if w then v2 else v)
    ensures name in EnumerableNames(props[name := ValDescriptor(v, w, e, c)]) <==> e
  {
  }

  // ---------------------------------------------------------------------
  // Index names and the constructors' tables
  // ---------------------------------------------------------------------

  /** The names of the first `n` indices. */
  ghost function IndexNames(n: nat): set<string> {
    set i | 0 <= i < n :: ToDecimal(i)
  }

  /** `IndexTable(n)` holds exactly the canonical decimals below `n`, each with its index accessor. */
  lemma {:induction false} IndexTableSpec(n: nat, name: string)
    ensures name in IndexTable(n) <==> ParseIndex(name).Some? && ParseIndex(name).value < n
    ensures name in IndexTable(n) ==> IndexTable(n)[name] == IndexDescriptor(ParseIndex(name).value)
  {
    if n > 0 {
      var last := ToDecimal(n - 1);
      assert ParseIndex(last) == Some(n - 1);
      assert IndexTable(n) == IndexTable(n - 1)[last := IndexDescriptor(n - 1)];
      IndexTableSpec(n - 1, name);
      if name != last && ParseIndex(name).Some? {
        ToDecimalOfParse(name);
        assert ParseIndex(name).value != n - 1;
      }
    }
  }

  /** The decimal name of an index below the size is in the table, with that index's accessor. */
  lemma IndexNameStored(n: nat, i: nat)
    requires i < n
    ensures ToDecimal(i) in IndexTable(n) && IndexTable(n)[ToDecimal(i)] == IndexDescriptor(i)
  {
    assert ParseIndex(ToDecimal(i)) == Some(i);
    IndexTableSpec(n, ToDecimal(i));
  }

  /** Every index name in the table is enumerable and named by an index below the size. */
  lemma IndexTableNames(n: nat)
    ensures IndexTable(n).Keys == IndexNames(n)
    ensures EnumerableNames(IndexTable(n)) == IndexNames(n)
  {
    forall name | name in IndexTable(n)
      ensures name in IndexNames(n) && IndexTable(n)[name].enumerable
    {
      IndexTableSpec(n, name);
      ToDecimalOfParse(name);
    }
    forall i | 0 <= i < n
      ensures ToDecimal(i) in IndexTable(n)
    {
      IndexNameStored(n, i);
    }
  }

  /** No index name is "length" (nor any other name that is not a canonical decimal). */
  lemma LengthIsNoIndex(n: nat)
    ensures "length" !in IndexTable(n)
  {
    IndexTableSpec(n, "length");
    assert !IsDigit("length"[0]);
  }

  /** A fresh JString and a fresh JFunction enumerate nothing; a fresh JArray enumerates its index names only. */
  lemma InitialEnumeration(n: nat)
    ensures EnumerableNames(StringTable()) == {}
    ensures EnumerableNames(FunctionTable()) == {}
    ensures EnumerableNames(ArrayTable(n)) == IndexNames(n)
    ensures "length" !in EnumerableNames(ArrayTable(n))
  {
    IndexTableNames(n);
    LengthIsNoIndex(n);
    assert EnumerableNames(ArrayTable(n)) == EnumerableNames(IndexTable(n));
  }

  /** The "length" of strings and arrays is permanent; a function's "name" and "length" can be deleted. */
  lemma InitialDeletion(n: nat)
    ensures Deleted(StringTable(), "length") == (StringTable(), false)
    ensures Deleted(ArrayTable(n), "length") == (ArrayTable(n), false)
    ensures Deleted(FunctionTable(), "name") == (map["length" := FunctionLengthDescriptor], true)
    ensures Deleted(FunctionTable(), "length") == (map["name" := FunctionNameDescriptor], true)
  {
    LengthIsNoIndex(n);
    assert ArrayTable(n)["length"] == ArrayLengthDescriptor;
    assert FunctionTable() - {"name"} == map["length" := FunctionLengthDescriptor];
    assert FunctionTable() - {"length"} == map["name" := FunctionNameDescriptor];
  }

  /** The indices differ from every built-in member name, so an index name is never claimed by a kind. */
  lemma IndexNameNotBuiltin(k: Kind, i: nat)
    ensures BuiltinMember(k, ToDecimal(i)).None?
    ensures ToDecimal(i) != "toString" && ToDecimal(i) != "length"
  {
    NatDigitsShape(i);
    assert IsDigit(ToDecimal(i)[0]);
  }

  /** Reads and writes of an array's initial table: "length" and each index go through the accessors. */
  lemma ArrayTableAccess(n: nat, i: nat)
    ensures Resolve(ArrayObject, ArrayTable(n), "length") == ByGetter(ArrayLength)
    ensures WriteStepOf(ArrayTable(n), "length") == RunSetter(ArrayResize)
    ensures Resolve(ArrayObject, ArrayTable(n), ToDecimal(i)) == if i < n then ByGetter(ElementGet(i)) else Absent
    ensures WriteStepOf(ArrayTable(n), ToDecimal(i)) == if i < n then RunSetter(ElementSet(i)) else Insert
  {
    LengthIsNoIndex(n);
    IndexNameNotBuiltin(ArrayObject, i);
    assert ParseIndex(ToDecimal(i)) == Some(i);
    IndexTableSpec(n, ToDecimal(i));
    assert ToDecimal(i) in ArrayTable(n) <==> ToDecimal(i) in IndexTable(n);
  }

  /** Reads and writes of a function's initial table. */
  lemma FunctionTableAccess()
    ensures Resolve(FunctionObject, FunctionTable(), "name") == ByGetter(FunctionName)
    ensures Resolve(FunctionObject, FunctionTable(), "length") == Stored(UInt32V(0))
    ensures Resolve(FunctionObject, FunctionTable(), "call") == Synthesized(CallMember)
    ensures WriteStepOf(FunctionTable(), "name") == Reject && WriteStepOf(FunctionTable(), "length") == Reject
  {
  }

  /** An earlier index table agrees with a later one on every name it holds. */
  lemma IndexTablePrefix(m: nat, n: nat)
    requires m <= n
    ensures forall name :: name in IndexTable(m) ==> name in IndexTable(n) && IndexTable(n)[name] == IndexTable(m)[name]
  {
    forall name | name in IndexTable(m)
      ensures name in IndexTable(n) && IndexTable(n)[name] == IndexTable(m)[name]
    {
      IndexTableSpec(m, name);
      IndexTableSpec(n, name);
    }
  }

  /**
    `updateLength` after the array shrank changes nothing: the index names
    of the larger size stay, so reads of them fall back to Null.
   */
  lemma ShrinkKeepsTable(base: map<string, Descriptor>, m: nat, n: nat)
    requires m <= n
    ensures (base + IndexTable(n)) + IndexTable(m) == base + IndexTable(n)
  {
    IndexTablePrefix(m, n);
  }

  /** The plain object of the tests: three writes give three enumerable names. */
  lemma ThreeWritesEnumerate(a: Value, b: Value, c: Value)
    ensures EnumerableNames(Written(Written(Written(map[], "name", a), "age", b), "active", c)) == {"name", "age", "active"}
  {
    var p1 := Written(map[], "name", a);
    var p2 := Written(p1, "age", b);
    var p3 := Written(p2, "active", c);
    assert p3 == map["name" := PlainDescriptor(a), "age" := PlainDescriptor(b), "active" := PlainDescriptor(c)];
  }
}
