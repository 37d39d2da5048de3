/** Mock objects on the heap, shared by both versions of the generator: the object the
    builder fills key by key, its `mockReset` key, and the record `instantiateWithMocks`
    returns. */
module MockObjects {
  import opened Substitutes
  import opened MockSpec

  /** A mock object. Each substitute is held by its key as the state it is in. */
  class MockObject {
    /** the substitutes, by key */
    var members: map<string, Recording>
    /** whether the synthetic `mockReset` was installed */
    var syntheticReset: bool
    /** the prototype names the synthetic reset walks (the closure's `functionNames`) */
    var functionNames: seq<string>

    /** The mock as a value. */
    function Model(): MockState
      reads this
    {
      MockState(members, syntheticReset, functionNames)
    }

    ghost predicate Valid()
      reads this
    {
      WellFormed(Model())
    }

    /** The empty object literal `{}` the builder starts from (no keys, no reset), together
        with the prototype name list `names` that the reset closure captures. */
    constructor Empty(names: seq<string>)
      ensures Model() == MockState(map[], false, names)
    {
      members := map[];
      syntheticReset := false;
      functionNames := names;
    }

    /** Calling the substitute under `key` (`mock[key](...args)`). */
    method Call(key: string, args: Args) returns (result: Option<Value>)
      requires key in members
      modifies this
      ensures (Model(), result) == CallMember(old(Model()), key, args)
      ensures old(Valid()) ==> Valid()
    {
      var (r, x) := Invoke(members[key], args);
      members := members[key := r];
      result := x;
    }

    /** `mock[key].mockReturnValue(v)`. */
    method MockReturnValue(key: string, v: Value)
      requires key in members
      modifies this
      ensures Model() == ConfigureMember(old(Model()), key, v)
      ensures old(Valid()) ==> Valid()
    {
      members := members[key := Configure(members[key], v)];
    }

    /** Calling `mock.mockReset()`: the synthetic reset calls `mockReset()` on the substitute
        of every name in `functionNames`, in order; otherwise `mockReset` is the class's own
        method, mocked like any other, and the call lands on that substitute. */
    method MockReset()
      requires Valid()
      modifies this
      ensures Valid()
      ensures Model() == ResetMock(old(Model()))
    {
      if syntheticReset {
        for i := 0 to |functionNames|
          invariant functionNames == old(functionNames) && syntheticReset
          invariant members == ResetNamed(old(members), functionNames[..i])
        {
          assert functionNames[..i + 1][..i] == functionNames[..i];
          members := members[functionNames[i] := Unused];
        }
        assert functionNames[..|functionNames|] == functionNames;
      } else {
        var _ := Call(ResetKey, []);
      }
    }
  }

  /** The mocks as values, in order. */
  function Models(mocks: seq<MockObject>): (ms: seq<MockState>)
    reads mocks
    ensures |ms| == |mocks|
    ensures forall i :: 0 <= i < |mocks| ==> ms[i] == mocks[i].Model()
  {
    seq(|mocks|, i reads mocks requires 0 <= i < |mocks| => mocks[i].Model())
  }

  /** No mock appears twice in the list. */
  predicate Distinct(mocks: seq<MockObject>)
  {
    forall i, j :: 0 <= i < j < |mocks| ==> mocks[i] != mocks[j]
  }

  /** Valid mocks that are distinct objects. */
  ghost predicate Independent(mocks: seq<MockObject>)
    reads mocks
  {
    && (forall i :: 0 <= i < |mocks| ==> mocks[i].Valid())
    && Distinct(mocks)
  }

  /** The mocks of a list of dependencies: one valid mock per entry, built from the entry's
      class, and no mock twice. */
  ghost predicate MocksOf(mocks: seq<MockObject>, deps: DependencyMap)
    reads mocks
  {
    && |mocks| == |deps|
    && Independent(mocks)
    && forall j :: 0 <= j < |deps| ==> mocks[j].Model() == BuildMock(deps[j].cls)
  }

  /** Appending the mock of the next entry. */
  lemma MocksOfSnoc(mocks: seq<MockObject>, deps: DependencyMap, mock: MockObject, i: nat)
    requires i < |deps| && MocksOf(mocks, deps[..i])
    requires mock.Model() == BuildMock(deps[i].cls) && mock !in mocks
    ensures MocksOf(mocks + [mock], deps[..i + 1])
  {
    var ms, ds := mocks + [mock], deps[..i + 1];
    forall j | 0 <= j < |ds| ensures ms[j].Model() == BuildMock(ds[j].cls) {
      if j < i { assert ms[j] == mocks[j] && ds[j] == deps[..i][j]; }
    }
  }

  /** One entry of the dependency map: a key and the class stored under it. */
  datatype Dependency = Dependency(name: string, cls: ClassDescriptor)

  /** The map's entries in `Object.keys` order. */
  type DependencyMap = seq<Dependency>

  /** An object's keys are distinct. */
  predicate DistinctNames(deps: DependencyMap)
  {
    forall i, j :: 0 <= i < j < |deps| ==> deps[i].name != deps[j].name
  }

  function Names(deps: DependencyMap): set<string>
  {
    set i | 0 <= i < |deps| :: deps[i].name
  }

  /** The dictionary filled by storing `values[i]` under the key of entry i, in order. */
  function ByName<T>(deps: DependencyMap, values: seq<T>): map<string, T>
    requires |values| == |deps|
    decreases |deps|
  {
    if deps == [] then map[]
    else ByName(deps[..|deps| - 1], values[..|values| - 1])[deps[|deps| - 1].name := values[|values| - 1]]
  }

  /** The keys of a map with one more entry. */
  lemma NamesOfPrefix(deps: DependencyMap)
    requires deps != []
    ensures Names(deps) == Names(deps[..|deps| - 1]) + {deps[|deps| - 1].name}
  {
    var ds := deps[..|deps| - 1];
    forall k | k in Names(deps) ensures k in Names(ds) + {deps[|deps| - 1].name} {
      var j :| 0 <= j < |deps| && deps[j].name == k;
      if j < |ds| { assert ds[j] == deps[j]; }
    }
    forall k | k in Names(ds) ensures k in Names(deps) {
      var j :| 0 <= j < |ds| && ds[j].name == k;
      assert deps[j] == ds[j];
    }
  }

  /** The dictionary has exactly the map's keys. */
  lemma {:induction false} ByNameKeys<T>(deps: DependencyMap, values: seq<T>)
    requires |values| == |deps|
    ensures ByName(deps, values).Keys == Names(deps)
    decreases |deps|
  {
    if deps != [] {
      ByNameKeys(deps[..|deps| - 1], values[..|values| - 1]);
      NamesOfPrefix(deps);
    }
  }

  /** With distinct keys, the value stored under the key of entry i is the i-th value. */
  lemma {:induction false} ByNameAt<T>(deps: DependencyMap, values: seq<T>, i: nat)
    requires |values| == |deps| && DistinctNames(deps) && i < |deps|
    ensures deps[i].name in ByName(deps, values)
    ensures ByName(deps, values)[deps[i].name] == values[i]
    decreases |deps|
  {
    var n := |deps| - 1;
    if i < n {
      var ds, vs := deps[..n], values[..n];
      assert ds[i] == deps[i] && vs[i] == values[i];
      assert DistinctNames(ds) by {
        forall j, k | 0 <= j < k < |ds| ensures ds[j].name != ds[k].name {
          assert ds[j] == deps[j] && ds[k] == deps[k];
        }
      }
      ByNameAt(ds, vs, i);
      assert deps[i].name != deps[n].name;
    }
  }

  /** Storing the value of entry i after the first i entries are stored. */
  lemma ByNameSnoc<T>(deps: DependencyMap, values: seq<T>, v: T, i: nat)
    requires |values| == i < |deps|
    ensures ByName(deps[..i + 1], values + [v]) == ByName(deps[..i], values)[deps[i].name := v]
  {
    var ds, vs := deps[..i + 1], values + [v];
    assert ds[..|ds| - 1] == deps[..i] && vs[..|vs| - 1] == values;
    assert ds[|ds| - 1] == deps[i] && vs[|vs| - 1] == v;
    assert ByName(ds, vs) == ByName(ds[..|ds| - 1], vs[..|vs| - 1])[ds[|ds| - 1].name := vs[|vs| - 1]];
  }

  /** The dictionary built from a whole map with distinct keys: it has exactly the map's keys,
      and the value under the key of entry i is the i-th value. */
  lemma ByNameFacts<T>(deps: DependencyMap, values: seq<T>)
    requires |values| == |deps| && DistinctNames(deps)
    ensures ByName(deps, values).Keys == Names(deps)
    ensures forall i :: 0 <= i < |deps| ==> ByName(deps, values)[deps[i].name] == values[i]
  {
    ByNameKeys(deps, values);
    forall i | 0 <= i < |deps| ensures ByName(deps, values)[deps[i].name] == values[i] {
      ByNameAt(deps, values, i);
    }
  }

  /** The class under test. Its constructor body and methods are not modelled. */
  datatype TargetClass = TargetClass(name: string)

  /** An instance of the class under test, with the positional arguments it was built from. */
  datatype ClassInstance = ClassInstance(ofClass: TargetClass, constructorArgs: seq<MockObject>)

  /** What `instantiateWithMocks` returns. The reset closure is represented by the list it
      closes over, `dependencyInstances`; the generator modules give the closure's body. */
  datatype Instantiation = Instantiation(
    classInstance: ClassInstance,
    dependencies: map<string, MockObject>,
    dependencyInstances: seq<MockObject>)
}
