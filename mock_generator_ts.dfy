/** The TypeScript generator, src/mock-generator.ts. Its `generateMock` is statement for
    statement `generateMockInstance` of the compiled file and is modelled once, by
    MockGeneratorJs.GenerateMockInstance. Its `instantiateWithMocks` builds the mocks the same
    way but takes the map without a default. What differs is the closure: `resetAll` reads
    `mock.mockReset` of every mock and never calls it. */
module MockGeneratorTs {
  import opened Substitutes
  import opened MockSpec
  import opened MockObjects
  import MockGeneratorJs

  /** `instantiateWithMocks` with the map required: the compiled function applied to a map
      that is present. */
  method InstantiateWithMocks(classToInstantiate: TargetClass, dependencyClasses: DependencyMap)
    returns (r: Instantiation)
    requires DistinctNames(dependencyClasses)
    ensures |r.dependencyInstances| == |dependencyClasses|
    ensures r.classInstance == ClassInstance(classToInstantiate, r.dependencyInstances)
    ensures r.dependencies.Keys == Names(dependencyClasses)
    ensures forall i :: 0 <= i < |dependencyClasses| ==>
      r.dependencies[dependencyClasses[i].name] == r.dependencyInstances[i]
    ensures forall i :: 0 <= i < |dependencyClasses| ==>
      r.dependencyInstances[i].Model() == BuildMock(dependencyClasses[i].cls)
    ensures Independent(r.dependencyInstances)
    ensures forall i :: 0 <= i < |r.dependencyInstances| ==> fresh(r.dependencyInstances[i])
  {
    r := MockGeneratorJs.InstantiateWithMocks(classToInstantiate, Some(dependencyClasses));
  }

  /** The `resetAll` closure as written: evaluates `mock.mockReset` for every mock and
      discards the function it reads, so no mock changes. */
  method ResetAll(dependencyInstances: seq<MockObject>)
    ensures Models(dependencyInstances) == old(Models(dependencyInstances))
  {
    for i := 0 to |dependencyInstances| {
      var _ := Lookup(dependencyInstances[i].Model(), ResetKey);
    }
  }

  /** A dependency whose method was called once: `resetAll` leaves its call on record. */
  method ResetAllKeepsCalls() returns (calledTimes: nat)
    ensures calledTimes == 1
  {
    var mock := MockGeneratorJs.GenerateMockInstance(ClassDescriptor(["constructor", "function1"]));
    assert "function1" in mock.members;
    var _ := mock.Call("function1", []);
    ResetAll([mock]);
    calledTimes := |mock.members["function1"].calls|;
  }

  /** On values: leaving the list unchanged is not resetting it. A mock with one recorded
      call is a list for which the two differ. */
  lemma IdentityIsNotResetEach()
    ensures var m := CallMember(BuildMock(ClassDescriptor(["function1"])), "function1", []).0;
      && WellFormed(m)
      && ResetEach([m]) != [m]
  {
    var m := CallMember(BuildMock(ClassDescriptor(["function1"])), "function1", []).0;
    assert m.members.Keys == BuildMock(ClassDescriptor(["function1"])).members.Keys;
    ResetEachAt([m]);
    assert ResetEach([m])[0].members["function1"] == Unused;
    assert m.members["function1"].calls == [[]];
  }
}
