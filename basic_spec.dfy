/** The scenarios of the basic test suite, tests/basic.spec.ts, restated over the model of
    the compiled generator and proved of it. Each target class is described by its prototype names; a
    class's own methods that the scenarios call are written out where they are used. */
module BasicSpec {
  import opened Substitutes
  import opened MockSpec
  import opened MockObjects
  import opened MockGeneratorJs

  /** `class ClassA { property1 = 1; function1(arg1) {...} }`: the field is set by the
      constructor and is not a prototype name. */
  const ClassA := ClassDescriptor(["constructor", "function1"])
  const ClassB := ClassDescriptor(["constructor", "function2"])

  /** The mock has `function1` and no `property1`. */
  method MethodsWithoutProperties() returns (function1: Property, property1: Property)
    ensures function1 == Recorder(Unused)
    ensures property1 == Undefined
  {
    var classAMock := GenerateMockInstance(ClassA);
    function1 := Lookup(classAMock.Model(), "function1");
    property1 := Lookup(classAMock.Model(), "property1");
  }

  /** An unconfigured method returns `undefined`; after `mockReturnValue` it returns the
      configured value. */
  method MockedMethods() returns (before: Option<Value>, after: Option<Value>)
    ensures before == None
    ensures after == Some(Str("mockRetVal"))
  {
    var classAMock := GenerateMockInstance(ClassA);
    assert "function1" in classAMock.members;
    before := classAMock.Call("function1", [Str("abc")]);
    classAMock.MockReturnValue("function1", Str("mockRetVal"));
    after := classAMock.Call("function1", [Str("abc")]);
  }

  /** `mockReset()` on the mock forgets the configured value. */
  method ResettingAllMethods() returns (configured: Option<Value>, afterReset: Option<Value>)
    ensures configured == Some(Str("mockRetVal"))
    ensures afterReset == None
  {
    var classAMock := GenerateMockInstance(ClassA);
    assert "function1" in classAMock.members && ResetKey !in ClassA.prototypeNames;
    classAMock.MockReturnValue("function1", Str("mockRetVal"));
    configured := classAMock.Call("function1", [Str("abc")]);
    classAMock.MockReset();
    afterReset := classAMock.Call("function1", [Str("abc")]);
  }

  /** Without a map the target is constructed with no arguments and nothing is mocked. */
  method WithoutDependencies() returns (constructorArgs: nat, mocked: nat)
    ensures constructorArgs == 0 && mocked == 0
  {
    var r := InstantiateWithMocks(TargetClass("ClassA"), None);
    constructorArgs := |r.classInstance.constructorArgs|;
    mocked := |r.dependencies.Keys|;
  }

  /** The target's `functionCombined`: `this.classA.function1() + this.classB.function2()`,
      for mocks whose two methods are configured to return strings, where `+` joins them. */
  method FunctionCombined(classA: MockObject, classB: MockObject) returns (result: string)
    requires classA != classB && "function1" in classA.members && "function2" in classB.members
    requires classA.members["function1"].ret.Some? && classA.members["function1"].ret.value.Str?
    requires classB.members["function2"].ret.Some? && classB.members["function2"].ret.value.Str?
    modifies classA, classB
    ensures classA.Model() == CallMember(old(classA.Model()), "function1", []).0
    ensures classB.Model() == CallMember(old(classB.Model()), "function2", []).0
    ensures old(classA.Valid()) ==> classA.Valid()
    ensures old(classB.Valid()) ==> classB.Valid()
    ensures result == old(classA.members["function1"].ret.value.s) + old(classB.members["function2"].ret.value.s)
  {
    var x := classA.Call("function1", []);
    var y := classB.Call("function2", []);
    result := x.value.s + y.value.s;
  }

  /** `instantiateWithMocks(ClassC, {ClassA, ClassB})`, with the two mocks taken by key; they
      are also the target's constructor arguments, in key order. */
  method InstantiateClassC() returns (r: Instantiation, classA: MockObject, classB: MockObject)
    ensures r.classInstance.constructorArgs == [classA, classB] == r.dependencyInstances
    ensures Independent(r.dependencyInstances)
    ensures classA != classB && classA.Valid() && classB.Valid()
    ensures classA.syntheticReset && "function1" in classA.members && classA.members["function1"] == Unused
    ensures classB.syntheticReset && "function2" in classB.members && classB.members["function2"] == Unused
    ensures fresh(classA) && fresh(classB)
  {
    var deps := [Dependency("ClassA", ClassA), Dependency("ClassB", ClassB)];
    r := InstantiateWithMocks(TargetClass("ClassC"), Some(deps));
    assert OrEmpty(Some(deps)) == deps;
    assert r.dependencies[deps[0].name] == r.dependencyInstances[0];
    assert r.dependencies[deps[1].name] == r.dependencyInstances[1];
    classA, classB := r.dependencies["ClassA"], r.dependencies["ClassB"];
    assert r.dependencyInstances == [classA, classB];
    assert classA.Model() == BuildMock(ClassA) && classB.Model() == BuildMock(ClassB);
    BuiltClasses();
  }

  /** The mocks of ClassA and ClassB: each gets the synthetic reset and an unused substitute
      for its method. */
  lemma BuiltClasses()
    ensures BuildMock(ClassA).syntheticReset && "function1" in BuildMock(ClassA).members
    ensures BuildMock(ClassA).members["function1"] == Unused
    ensures BuildMock(ClassB).syntheticReset && "function2" in BuildMock(ClassB).members
    ensures BuildMock(ClassB).members["function2"] == Unused
  {
  }

  /** Configured mocks make the target's `functionCombined` return "firstsecond", and both
      mocked methods are called. */
  method CombinedDependencies() returns (result: string, calledA: nat, calledB: nat)
    ensures result == "firstsecond"
    ensures calledA == 1 && calledB == 1
  {
    var r, classA, classB := InstantiateClassC();
    classA.MockReturnValue("function1", Str("first"));
    classB.MockReturnValue("function2", Str("second"));
    result := FunctionCombined(classA, classB);
    assert "first" + "second" == "firstsecond";
    calledA, calledB := |classA.members["function1"].calls|, |classB.members["function2"].calls|;
  }

  /** After `resetAllMocks()` neither mocked method has a recorded call. */
  method ResetAllMocksClearsCalls() returns (calledA: nat, calledB: nat)
    ensures calledA == 0 && calledB == 0
  {
    var r, classA, classB := InstantiateClassC();
    classA.MockReturnValue("function1", Str("first"));
    classB.MockReturnValue("function2", Str("second"));
    var _ := FunctionCombined(classA, classB);
    var mocks := r.dependencyInstances;
    assert mocks[0] == classA && mocks[1] == classB && |mocks| == 2;
    assert classA.Valid() && classB.Valid() && classA != classB;
    ResetAllMocks(mocks);
    calledA, calledB := |classA.members["function1"].calls|, |classB.members["function2"].calls|;
  }
}
