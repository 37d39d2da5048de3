# jest-class-mocker: mock generation and instantiation with mocks

This project models the core of jest-class-mocker. The core is two things.

- The mock builder: `generateMockInstance` in `src/mock-generator.js` and `generateMock` in
  `src/mock-generator.ts`. It lists the own property names of a class's prototype and stores a
  fresh recording substitute (`jest.fn()`) under each name. It then adds a synthetic `mockReset`
  that resets each of those substitutes, unless the mock already has a `mockReset` key.
- The instantiator: `instantiateWithMocks` in both files. It mocks every class of a dependency
  map in key order and constructs the target class with the mocks as positional arguments. It
  returns the instance, the mocks under their keys, and a closure that resets all mocks.

The model is written in the source's own form. A mock object is a class whose fields the
methods update in place: its substitutes by key, whether the synthetic reset was installed,
and the name list the reset walks. Each method is proved against value-level functions. Those
functions are `BuildMock`, `ResetMock` and `ResetEach` in module `MockSpec`, and the lemmas
about them state what the source promises.

Modules:

- `Substitutes` (`substitutes.dfy`): the state of a recording substitute and what a call,
  `mockReturnValue` and `mockReset` do to it.
- `MockSpec` (`mock_spec.dfy`): a mock object as a value, with the build and the reset.
- `MockObjects` (`mock_objects.dfy`): the heap class `MockObject` and the dependency map.
- `MockGeneratorJs` (`mock_generator_js.dfy`): `src/mock-generator.js`.
- `MockGeneratorTs` (`mock_generator_ts.dfy`): `src/mock-generator.ts`.
- `BasicSpec` (`basic_spec.dfy`): the scenarios of `tests/basic.spec.ts`.

How the model treats the source:

- A class is given by its prototype names, in the order reflection lists them. For a class
  these include `"constructor"`. Instance fields such as `property1 = 1` are not among them, so
  they are not mocked.
- The mock starts as `{}`, and `Object.prototype` has no `mockReset`. So, provided no
  prototype name is `__proto__`, the guard `!mock.mockReset` holds exactly when `"mockReset"`
  is not a prototype name. If the class
  defines its own `mockReset`, that key holds an ordinary substitute. Calling it, directly or
  through `resetAllMocks`, records a call with no arguments and resets nothing.
- A dependency map is the sequence of its entries in `Object.keys` order, with distinct keys.
- The JavaScript default `dependencyClasses = {}` is an `Option`: `None` stands for
  `undefined` and acts as the empty map.
- The target class is given by its name. Its instance is modelled by the class and the
  argument list passed to its constructor; the modelled constructor neither calls nor changes
  its arguments and never throws.
- A substitute is modelled by its observable state: its calls and its configured return value.
  A mock object holds one such state per key.

Map values that are not classes have no branch of their own. Every map value is handed to the
mock builder (`src/mock-generator.js:39`), which reads `value.prototype`
(`src/mock-generator.js:10`). For a string such as `'abc'` that is `undefined`, and
`Object.getOwnPropertyNames(undefined)` throws a `TypeError`. So the test "with dependencies
and an initializer" (`tests/basic.spec.ts:204-257`), which passes `name: 'abc'`, cannot pass
as written. The model's map holds only classes.

## Model

| member | source | states |
|---|---|---|
| Substitutes.Invoke | src/mock-generator.js:12 | one call of a `jest.fn()` substitute: appends the arguments to its history and yields its configured value; InvokeAllReturns states this for any sequence of calls |
| Substitutes.Configure | tests/basic.spec.ts:29 | `mockReturnValue(v)`: keeps the history and sets the configured value; ConfiguredValueReturned states what later calls then return |
| Substitutes.InvokeAllReturns | tests/basic.spec.ts:28-31 | every call of a substitute returns its configured value, and its history grows by exactly the calls' argument lists, in order |
| Substitutes.UnconfiguredReturnsUndefined | tests/basic.spec.ts:26-28 | a fresh, unconfigured substitute returns undefined on every call and records each call |
| Substitutes.ConfiguredValueReturned | tests/basic.spec.ts:29-31 | after `mockReturnValue(v)` every later call returns v, and earlier calls stay recorded |
| MockSpec.Fill | src/mock-generator.js:11-13 | after the forEach, the mock has a key for exactly the listed names, and every one of them holds an unused substitute |
| MockSpec.BuildMock | src/mock-generator.js:8-21 | a built mock has one unused substitute per prototype name and the synthetic reset iff "mockReset" is not a prototype name; its own keys are the prototype names plus "mockReset" |
| MockSpec.Lookup | tests/basic.spec.ts:15-16 | reading a key of a mock gives its substitute, the synthetic reset under "mockReset", or undefined; BuildMockLookup states what it gives on a built mock |
| MockSpec.BuildMockLookup | src/mock-generator.js:11-19 | reading a key of a built mock gives an unused substitute for a prototype name, the bulk reset for "mockReset" when the class has no such method, and undefined otherwise |
| MockSpec.CallMember | src/mock-generator.js:12 | calling the substitute under a key (`mock[key](...)`, as at tests/basic.spec.ts:28): that key's history grows by the arguments and the configured value is returned; the keys, every other key's state, the reset and the name list are kept, and so is well-formedness; MockObject.Call and ResetForgetsCalls are stated through it |
| MockSpec.ConfigureMember | tests/basic.spec.ts:29 | `mock[key].mockReturnValue(v)`: that key keeps its history and now returns v; the keys, every other key's state, the reset and the name list are kept, and so is well-formedness; MockObject.MockReturnValue and ResetForgetsConfiguration are stated through it |
| MockSpec.ResetNamed | src/mock-generator.js:17 | resetting the listed names keeps the keys and clears exactly the entries whose key is listed |
| MockSpec.ResetMock | src/mock-generator.js:15-19 | the synthetic reset clears every substitute; a class's own mockReset only records one call with no arguments and leaves every other key alone; the shape of the mock is kept |
| MockSpec.ResetForgetsCalls | src/mock-generator.js:16-18 | a call made before the synthetic reset leaves no trace after it |
| MockSpec.ResetForgetsConfiguration | tests/basic.spec.ts:43-48 | a value configured before the synthetic reset leaves no trace after it |
| MockSpec.ResetRestoresBuiltMock | src/mock-generator.js:14-19 | the synthetic reset puts a built mock back in its built state and is idempotent |
| MockSpec.ResetEach | src/mock-generator.js:43-45 | `resetAllMocks` on values: `mockReset()` on every mock of the list, in order; ResetEachAt and ResetEachMatches characterise it position by position, and ResetEachClears states what it promises |
| MockSpec.ResetEachAt | src/mock-generator.js:43-45 | resetting a list of mocks keeps its length, and the mock at position i becomes ResetMock of the mock that was there |
| MockSpec.ResetEachMatches | src/mock-generator.js:43-45 | conversely, a list whose every mock is ResetMock of the mock at the same position of another list is ResetEach of that list |
| MockSpec.ResetEachClears | src/mock-generator.js:29-31 | when every mock has the synthetic reset, after the reset of all mocks every substitute of every mock is unused, as if mockReset had been called on each |
| MockObjects.MockObject.Empty | src/mock-generator.js:9 | the builder starts from an object with no keys |
| MockObjects.MockObject.Call | src/mock-generator.js:12 | calling the substitute under a key updates only that key's state, as a call does, and returns the configured value; the mock stays well formed |
| MockObjects.MockObject.MockReturnValue | tests/basic.spec.ts:29 | configuring the substitute under a key changes only that key's return value |
| MockObjects.MockObject.MockReset | src/mock-generator.js:16-18 | calling the mock's mockReset leaves it as ResetMock of its old state, and it stays well formed |
| MockObjects.ByName | src/mock-generator.js:41 | the dictionary filled by `dependenciesById[constructorName] = mock` over the entries in order; ByNameKeys, ByNameAt, ByNameSnoc and ByNameFacts state its keys and values |
| MockObjects.ByNameKeys | src/mock-generator.js:37-42 | the dictionary filled in the forEach has exactly the map's keys |
| MockObjects.ByNameAt | src/mock-generator.js:41 | with distinct keys, the value under the key of entry i is the i-th mock |
| MockObjects.ByNameSnoc | src/mock-generator.js:41 | storing entry i after the first i entries gives the dictionary of the first i + 1 entries |
| MockObjects.ByNameFacts | src/mock-generator.js:37-42 | the dictionary of the whole map has its keys and the mock of each entry under that entry's key |
| MockObjects.MocksOfSnoc | src/mock-generator.js:39-40 | appending the mock of the next entry keeps the list a list of distinct, well-formed mocks built from the entries' classes |
| MockGeneratorJs.GenerateMockInstance | src/mock-generator.js:8-21 | the method returns a fresh, well-formed mock equal to BuildMock of the class; `generateMock` at src/mock-generator.ts:3-18 is the same code and is modelled by this method too |
| MockGeneratorJs.OrEmpty | src/mock-generator.js:34 | the default `dependencyClasses = {}`: an absent map is the empty map; InstantiateWithMocks states that it then mocks nothing |
| MockGeneratorJs.InstantiateWithMocks | src/mock-generator.js:33-52 | the result has one fresh mock per map entry, in key order, each equal to BuildMock of its class and all distinct; the target gets them as constructor arguments in that order; the dictionary has exactly the map's keys, with each entry's mock under its key; an absent map gives no mocks |
| MockGeneratorJs.ResetAllMocks | src/mock-generator.js:43-45 | after the reset of all mocks, each mock of the list is ResetMock of what it was before, and the list stays distinct and well formed |
| MockGeneratorTs.InstantiateWithMocks | src/mock-generator.ts:28-57 | with the map required, the result is that of the compiled function on a present map: one fresh, distinct mock per entry in key order, each equal to BuildMock of its class, passed to the target's constructor in that order and returned under the entries' keys |
| MockGeneratorTs.ResetAll | src/mock-generator.ts:46-48 | as written, `resetAll` leaves every mock of the list exactly as it was |
| MockGeneratorTs.ResetAllKeepsCalls | src/mock-generator.ts:46-48 | a method called once before `resetAll` still shows one recorded call after it |
| MockGeneratorTs.IdentityIsNotResetEach | src/mock-generator.ts:47 | for a mock with one recorded call, leaving the list unchanged differs from resetting it |
| BasicSpec.MethodsWithoutProperties | tests/basic.spec.ts:13-17 | the mock of ClassA has `function1` and no `property1` |
| BasicSpec.MockedMethods | tests/basic.spec.ts:19-32 | a mocked method returns undefined, then the value configured with mockReturnValue |
| BasicSpec.ResettingAllMethods | tests/basic.spec.ts:34-49 | after the mock's mockReset, the configured method returns undefined again |
| BasicSpec.WithoutDependencies | tests/basic.spec.ts:53-65 | without a map, ClassA is constructed with no arguments and the dictionary is empty |
| BasicSpec.BuiltClasses | tests/basic.spec.ts:109-123 | the mocks of ClassA and ClassB have the synthetic reset and an unused substitute for their method |
| BasicSpec.FunctionCombined | tests/basic.spec.ts:135-137 | the target's functionCombined calls each dependency's method once and returns the two configured strings joined |
| BasicSpec.InstantiateClassC | tests/basic.spec.ts:140-143 | the mocks under "ClassA" and "ClassB" are the target's first and second constructor arguments |
| BasicSpec.CombinedDependencies | tests/basic.spec.ts:145-151 | with both mocks configured, functionCombined returns "firstsecond" and each mocked method was called once |
| BasicSpec.ResetAllMocksClearsCalls | tests/basic.spec.ts:185-201 | after `resetAllMocks()` neither mocked method has a recorded call |

## Left out

- `jest.fn()` beyond what the builder and the tests use is not modelled. That covers
  implementations, `mockReturnValueOnce`, promises, mock instances, `this` binding and calls
  through a substitute taken out of the mock.
- Substitutes are not separate heap objects. Each is the state held under its key in the mock
  object, so aliasing a substitute outside its mock is not captured.
- Reflection over the prototype is an input: the class descriptor lists the prototype names.
  Getters, symbols, non-enumerable details and inherited prototype chains are not modelled.
- Properties inherited from `Object.prototype` are not modelled. Reading such a key of a mock
  gives `undefined` here, while JavaScript would find e.g. `toString`.
- A prototype name `__proto__` is not modelled as JavaScript treats it. There the assignment
  at `src/mock-generator.js:12` goes to `Object.prototype`'s setter and makes the substitute
  the mock's prototype, so `mock.mockReset` at `src/mock-generator.js:15` is found on that
  substitute and no synthetic reset is installed. The model stores an ordinary key
  `"__proto__"` and installs the synthetic reset.
- Map values that are not classes are not modelled: for them the source throws a `TypeError`
  at `src/mock-generator.js:10`, as described above. The test at `tests/basic.spec.ts:204-257`
  passes such a value.
- BasicSpec.FunctionCombined: requires both mocked methods to be configured with strings, the
  only case the tests use; JavaScript `+` on `undefined` or numbers (`NaN`, `"firstundefined"`,
  a sum) is not modelled.
- The target class's constructor, run at `src/mock-generator.js:46` on the live mocks, is
  not modelled beyond receiving them: the modelled constructor neither calls nor changes its
  arguments and does not throw. So the ensures of `MockGeneratorJs.InstantiateWithMocks` and
  `MockGeneratorTs.InstantiateWithMocks` describe the mocks as the constructor receives them;
  a constructor that calls a mocked method, or throws, is not covered. The target's other
  methods are not modelled either; the scenarios write out the one method they call.
- The order of `Object.keys` (integer-like keys first) is not derived: the map is given
  already in that order.
- The type-level declarations in `src/DependencyTypes.ts`, `src/types.ts` and the `.d.ts`
  files are not modelled. Neither are the module exports and the source-map comment.
- The tests destructure `resetAllMocks`, the name in the compiled file. The TypeScript
  function returns the closure as `resetAll`. Which file the test runner loads is not part of
  this model.

## Findings

| source | as written | input that shows it | evidently intended | confidence | as-written member | corrected member |
|---|---|---|---|---|---|---|
| src/mock-generator.ts:47 | `dependencyInstances.forEach(mock => mock.mockReset)` reads each mock's `mockReset` and never calls it, so `resetAll` changes nothing | one mock of a class with `function1`, `function1` called once, then `resetAll()`: one call is still recorded | call `mock.mockReset()` on every mock, as `src/mock-generator.js:44` does, after which no call is recorded | high, not executed | MockGeneratorTs.ResetAllKeepsCalls | MockGeneratorJs.ResetAllMocks |
