/** The compiled generator, src/mock-generator.js: `generateMockInstance`,
    `instantiateWithMocks` (with its default empty map) and the `resetAllMocks` closure. */
module MockGeneratorJs {
  import opened Substitutes
  import opened MockSpec
  import opened MockObjects

  /** Builds a mock of a class: a fresh substitute under every prototype name, then the
      synthetic `mockReset` unless the mock already has that key. */
  method GenerateMockInstance(cls: ClassDescriptor) returns (mock: MockObject)
    ensures fresh(mock) && mock.Valid()
    ensures mock.Model() == BuildMock(cls)
  {
    var functionNames := cls.prototypeNames;
    mock := new MockObject.Empty(functionNames);
    for i := 0 to |functionNames|
      invariant mock.Model() == MockState(Fill(functionNames[..i]), false, functionNames)
    {
      assert functionNames[..i + 1][..i] == functionNames[..i];
      mock.members := mock.members[functionNames[i] := Unused];
    }
    assert functionNames[..|functionNames|] == functionNames;
    if ResetKey !in mock.members {
      mock.syntheticReset := true;
    }
  }

  /** The parameter default `dependencyClasses = {}`. */
  function OrEmpty(dependencyClasses: Option<DependencyMap>): DependencyMap
  {
    if dependencyClasses.Some? then dependencyClasses.value else []
  }

  /** Mocks every entry of the dependency map in key order, constructs the target with the
      mocks as positional arguments, and returns the instance, the mocks by key, and the list
      the reset closure works on. An absent map is the empty map. */
  method InstantiateWithMocks(classToInstantiate: TargetClass, dependencyClasses: Option<DependencyMap>)
    returns (r: Instantiation)
    requires dependencyClasses.Some? ==> DistinctNames(dependencyClasses.value)
    ensures |r.dependencyInstances| == |OrEmpty(dependencyClasses)|
    ensures r.classInstance == ClassInstance(classToInstantiate, r.dependencyInstances)
    ensures r.dependencies.Keys == Names(OrEmpty(dependencyClasses))
    ensures forall i :: 0 <= i < |r.dependencyInstances| ==>
      r.dependencies[OrEmpty(dependencyClasses)[i].name] == r.dependencyInstances[i]
    ensures forall i :: 0 <= i < |r.dependencyInstances| ==>
      r.dependencyInstances[i].Model() == BuildMock(OrEmpty(dependencyClasses)[i].cls)
    ensures Independent(r.dependencyInstances)
    ensures forall i :: 0 <= i < |r.dependencyInstances| ==> fresh(r.dependencyInstances[i])
  {
    var deps := OrEmpty(dependencyClasses);
    var dependenciesById: map<string, MockObject> := map[];
    var dependencyInstances: seq<MockObject> := [];
    for i := 0 to |deps|
      invariant |dependencyInstances| == i
      invariant dependenciesById == ByName(deps[..i], dependencyInstances)
      invariant MocksOf(dependencyInstances, deps[..i])
      invariant forall j :: 0 <= j < i ==> fresh(dependencyInstances[j])
    {
      var mock := GenerateMockInstance(deps[i].cls);
      ByNameSnoc(deps, dependencyInstances, mock, i);
      MocksOfSnoc(dependencyInstances, deps, mock, i);
      dependencyInstances := dependencyInstances + [mock];
      dependenciesById := dependenciesById[deps[i].name := mock];
    }
    assert deps[..|deps|] == deps;
    ByNameFacts(deps, dependencyInstances);
    assert MocksOf(dependencyInstances, deps);
    var classInstance := ClassInstance(classToInstantiate, dependencyInstances);
    r := Instantiation(classInstance, dependenciesById, dependencyInstances);
  }

  /** The `resetAllMocks` closure: `mockReset()` on every mock of the list, in order. */
  method ResetAllMocks(dependencyInstances: seq<MockObject>)
    requires Independent(dependencyInstances)
    modifies dependencyInstances
    ensures Independent(dependencyInstances)
    ensures forall j :: 0 <= j < |dependencyInstances| ==>
      dependencyInstances[j].Model() == ResetMock(old(dependencyInstances[j].Model()))
  {
    ghost var before := Models(dependencyInstances);

    for i := 0 to |dependencyInstances|
      invariant Distinct(dependencyInstances)
      invariant forall j :: 0 <= j < |dependencyInstances| ==>
        dependencyInstances[j].Model() == if j < i then ResetMock(before[j]) else before[j]
    {
      dependencyInstances[i].MockReset();
    }
  }
}
