# NativeScript-Vue element registry and template compile cache, in Dafny

This project models two small stateful parts of NativeScript-Vue that sit between the Vue
renderer and the NativeScript view toolkit. It proves properties of both.

**The element registry** (`packages/runtime/src/registry.ts`) is a process-wide dictionary,
`elementMap`. It maps normalised element names to descriptors. A descriptor holds view metadata
(mounting flags plus optional custom node operations) and an optional resolver that yields the
native view class.

- `element_names.dfy` (module `ElementNames`): `normalizeElementName`, which removes every `-`
  and lower-cases what is left, with its algebra. The key contains no hyphen and is
  lower-case. Normalisation is idempotent and ignores hyphens and letter case.
- `registry.dfy` (module `Registry`) holds four parts:
  - The class `ElementRegistry`. Its `elementMap` field is a `map`. Its methods are
    `registerElement` and `registerTestElement`. Its reading functions are `getViewMeta` and
    `getViewClass`, with their error cases.
  - The built-in registration block, as the table of its twenty calls replayed in order.
  - The two node operations of `Frame`.
  - The as-written behaviour behind the finding below.
- `builtin_keys.dfy` (module `BuiltInKeys`): the registry key of each built-in element name,
  and the fact that the keys are pairwise distinct.

**The compile cache** (`packages/nativescript-vue/src/index.ts`) lives in
`compiler_facade.dfy` (module `CompilerFacade`). The class `TemplateCompiler` holds
`compileCache`, keyed by the verbatim template string, and a log of the templates the external
compiler was asked to compile. `CompileToFunction` is `compileToFunction`. Its contract covers
the non-string input, the hit and the miss. `MergeOptions` is the options object handed to the
compiler, where the caller's options are spread over the three defaults.

`wrappers.dfy` (module `Wrappers`) holds the `Option`, `Result` and `Outcome` types. A `Failure`
or `Fail` result stands for a thrown `Error`.

The build constants become parameters:
- `__TEST__` is `ElementRegistry.testBuild`.
- `__DEV__` is the `devBuild` argument of `FrameInsert`.

The external template compiler is the function-valued field `TemplateCompiler.compile`. The
render function that `new Function('Vue', code)(runtime)` creates is `Render(code, instance)`,
where `instance` numbers the evaluation. Two evaluations therefore never give the same function
object.

Three facts about the code shape the model:
- In a test build, `getViewClass` tests the entry's `TEST_VIEW` flag, but both branches call
  the entry's own resolver (packages/runtime/src/registry.ts:55-63). `ResolveEntry` models both
  branches and proves they agree.
- `getViewClass` calls the resolver on every call and memoises nothing.
- `isKnownView` is commented out (packages/runtime/src/registry.ts:110-112), so it is not
  modelled. The compile facade's default `isNativeTag` option is the opaque token
  `RegistryIsKnownView`.

## Model

| member | source | states |
|---|---|---|
| ElementNames.StripHyphens | packages/runtime/src/registry.ts:70 | the result has no `-`, is no longer than the input, and is the input itself when the input has no `-` |
| ElementNames.ToLowerCase | packages/runtime/src/registry.ts:70 | same length, and every character is the lower-case form of the input character at the same place |
| ElementNames.NormalizeElementName | packages/runtime/src/registry.ts:69-71 | the key contains no `-`, has no upper-case letter, and is never longer than the name |
| ElementNames.StripHyphensConcat | packages/runtime/src/registry.ts:70 | stripping hyphens distributes over concatenation (proved by induction) |
| ElementNames.ToLowerCaseConcat | packages/runtime/src/registry.ts:70 | lower-casing distributes over concatenation |
| ElementNames.NormalizeConcat | packages/runtime/src/registry.ts:69-71 | the key of a concatenation is the concatenation of the keys |
| ElementNames.ToLowerCaseKeepsShape | packages/runtime/src/registry.ts:70 | lower-casing keeps a hyphen-free string hyphen-free and leaves lower-case text unchanged |
| ElementNames.NormalizeIdempotent | packages/runtime/src/registry.ts:69-71 | a key normalises to itself, so normalising twice is normalising once |
| ElementNames.NormalizeIgnoresHyphen | packages/runtime/src/registry.ts:69-71 | inserting `-` anywhere in a name leaves its key unchanged |
| ElementNames.NormalizeIgnoresCase | packages/runtime/src/registry.ts:69-71 | names that differ only in letter case have the same key (proved by induction) |
| ElementNames.StackLayoutSpellings | packages/runtime/src/registry.ts:69-71 | `Stack-Layout`, `StackLayout` and `stacklayout` all have the key `stacklayout` |
| ElementNames.KeyOfHyphenFreeName | packages/runtime/src/registry.ts:69-71 | the key of a hyphen-free name is its letter-by-letter lower-case form |
| Registry.MergeMeta | packages/runtime/src/registry.ts:79 | each supplied meta property replaces the default, each omitted one keeps `defaultViewMeta`, and no meta gives exactly `{viewFlags: NONE}` |
| Registry.CallResolver | packages/runtime/src/registry.ts:54-66 | success exactly when a resolver is present and returns, with its class as the value; a throwing or absent resolver fails with the "could not load view" error naming the element, carrying the resolver's reason when it throws |
| Registry.ResolveEntry | packages/runtime/src/registry.ts:54-63 | the `__TEST__`/`TEST_VIEW` branch and the ordinary branch give the same result, the entry's resolver outcome |
| Registry.CoreView | packages/runtime/src/registry.ts:120 | a built-in resolver (`() => require(...).X`) returns the class exported under the given name and never throws |
| Registry.ElementRegistry.constructor | packages/runtime/src/registry.ts:29 | the registry starts as the empty map |
| Registry.ElementRegistry.GetViewMeta | packages/runtime/src/registry.ts:31-43 | fails, with the unknown-element error naming the name as spelled, exactly when the name's key is not in the map; otherwise returns the stored meta |
| Registry.ElementRegistry.GetViewClass | packages/runtime/src/registry.ts:45-67 | unknown key: the unknown-element error; known key: whatever calling the stored resolver gives, whatever the flags and build mode |
| Registry.ElementRegistry.StoredKeysFound | packages/runtime/src/registry.ts:31-67 | while every stored key is normalised, looking a stored key up by its own spelling finds its entry, for the meta and for the class |
| Registry.ElementRegistry.RegisterElement | packages/runtime/src/registry.ts:73-90 | a taken key fails with the duplicate error and leaves the map unchanged; otherwise exactly that key is added, holding the merged meta and the resolver; every spelling with that key then finds the meta, and lookups of every other name are unchanged |
| Registry.ElementRegistry.RegisterTestElement | packages/runtime/src/registry.ts:93-108 | in a test build the entry is overwritten without failing, its flags gain `TEST_VIEW`, and the class lookup calls the new resolver; otherwise the map is unchanged |
| Registry.Registered | packages/runtime/src/registry.ts:116-246 | the map left by a run of successful registrations holds the key of every registration of the run |
| Registry.RegisteredEntries | packages/runtime/src/registry.ts:116-246 | when the keys of a run are distinct, each registration finds its own descriptor in the resulting map (proved by induction) |
| Registry.KeysDistinctFromList | packages/runtime/src/registry.ts:116-246 | keys that match a duplicate-free list are pairwise distinct |
| Registry.BuiltInRegistration | packages/runtime/src/registry.ts:116-246 | the twenty `registerElement` calls of the built-in block in source order, with their names, resolvers and metas; every built-in resolver returns a class, and only `InternalActionBar` and `Frame` supply node operations |
| Registry.BuiltInKeyAt | packages/runtime/src/registry.ts:116-246 | the key of the `i`-th built-in call is the `i`-th entry of the key list |
| BuiltInKeys.KeyListDistinct | packages/runtime/src/registry.ts:116-246 | the twenty built-in keys are pairwise distinct |
| Registry.BuiltInKeysComputed | packages/runtime/src/registry.ts:116-246 | the keys of all twenty built-in calls, in order |
| Registry.BuiltInKeysDistinct | packages/runtime/src/registry.ts:116-246 | no two built-in calls share a key |
| Registry.BuiltInMeta | packages/runtime/src/registry.ts:116-246 | the layouts carry `LAYOUT_VIEW`; `ContentView`, `ScrollView` and `Page` carry `CONTENT_VIEW`; the action bar skips the DOM and has its own node operations; `Frame` keeps the default flags with its own node operations; all others get the default meta |
| Registry.ElementRegistry.RegisterAll | packages/runtime/src/registry.ts:116-246 | registering a duplicate-free run in order on the empty registry never fails; the map becomes `Registered(run)` and every name of the run reads back its meta and resolver |
| Registry.ElementRegistry.RegisterBuiltInElements | packages/runtime/src/registry.ts:116-246 | the built-in block run on the empty registry never hits the duplicate error, and every built-in name reads back the meta and resolver its call supplied |
| Registry.FrameChildWarning | packages/runtime/src/registry.ts:196-199 | the warning is the fixed prefix, then the child's class name, then the fixed suffix |
| Registry.FrameChildWarningInjective | packages/runtime/src/registry.ts:196-199 | different class names give different warnings |
| Registry.FrameInsert | packages/runtime/src/registry.ts:186-202 | navigation happens exactly when the child is a `Page`, to that page in the parent frame; a non-page child gives one warning in a development build and nothing otherwise |
| Registry.FrameInsertIgnoresIndex | packages/runtime/src/registry.ts:186-202 | the insertion index never matters, and for a page neither does the build mode |
| Registry.FrameRemove | packages/runtime/src/registry.ts:203-205 | removing a child from a frame has no effect |
| Registry.LookupAsWritten | packages/runtime/src/registry.ts:29 | reading `elementMap[key]` on a plain object finds an own entry, or an inherited property for `constructor` and `__proto__`, and is undefined otherwise |
| Registry.RegisterElementAsWritten | packages/runtime/src/registry.ts:78-88 | as written, registration fails when the key is an own key or an inherited property name |
| Registry.GetViewMetaAsWritten | packages/runtime/src/registry.ts:34-42 | as written, an inherited property name returns an undefined meta instead of failing |
| Registry.GetViewClassAsWritten | packages/runtime/src/registry.ts:45-67 | as written, an inherited property name fails as "could not load view" (its undefined `meta` in a test build, its undefined `resolver` otherwise) instead of as an unknown element |
| Registry.ConstructorRejectedAsWritten | packages/runtime/src/registry.ts:81-83 | on the empty registry, `constructor` (its own key) is refused as already registered, reads back an undefined meta, and its class lookup fails as a load error instead of as unknown |
| CompilerFacade.MergeOptions | packages/nativescript-vue/src/index.ts:34-43 | each option the caller supplies replaces the default; omitted ones are `isKnownView`, `hoistStatic: true` and an ignoring `onError`; other options pass through; no options give exactly the defaults |
| CompilerFacade.MergeOptionsFullOverride | packages/nativescript-vue/src/index.ts:34-43 | a caller that spells out every option gets exactly those options; no default survives |
| CompilerFacade.CompiledOnce | packages/nativescript-vue/src/index.ts:27-48 | while the cache matches the compile log, no template string was compiled twice |
| CompilerFacade.CachedFunctionsDistinct | packages/nativescript-vue/src/index.ts:47-48 | different template strings are cached as different render functions |
| CompilerFacade.TemplateCompiler.constructor | packages/nativescript-vue/src/index.ts:16 | the cache starts empty, with nothing compiled |
| CompilerFacade.TemplateCompiler.CompileToFunction | packages/nativescript-vue/src/index.ts:18-49 | a non-string template gives `NOOP` and changes nothing; a cached string returns its function, whatever the options, and changes nothing; a new string is compiled once with the merged options, and only its key is added to the cache |
| CompilerFacade.CompileSameTemplateTwice | packages/nativescript-vue/src/index.ts:27-48 | two requests for one string return the same function; the compiler runs at most once, with the first request's options |
| CompilerFacade.CompileTwoTemplates | packages/nativescript-vue/src/index.ts:27-48 | two different strings are cached independently under different functions, and every other entry is kept |

## Left out

- ElementNames.ToLowerCase: lower-cases only the ASCII letters `A`-`Z`. JavaScript's `toLowerCase` also maps other Unicode upper-case letters. Every built-in element name is ASCII.
- Registry.ElementRegistry.GetViewClass: the resolver is an outcome (`Returns(class)` or `Throws(reason)`), not a function. Whether the same resolver could behave differently on a later call is not modelled.
- Registry.ElementRegistry.RegisterTestElement: models the intended own-key write for every name, including `__proto__`. As written (packages/runtime/src/registry.ts:29, 103), a test-build `registerTestElement('__proto__', r, m)` on the plain `{}` goes through the inherited `__proto__` setter. The descriptor `{meta, resolver}` then becomes the map's prototype and no key is added. After that, `elementMap['meta']` and `elementMap['resolver']` read truthy inherited values, so `registerElement('meta')` throws "Element for meta already registered." and `getViewMeta('meta')` returns `undefined`. The model instead stores the key `__proto__` and changes nothing else. This is the plain-object cause of the first finding below, reached through the test-only path. Changing a map's prototype is not modelled.
- Registry.ElementRegistry.GetViewMeta: returns the stored meta by value. In the source (packages/runtime/src/registry.ts:42) it is the stored object itself, so a caller that mutates it also changes the registry entry. Mutation through the returned object is not modelled. Nothing in the core relies on it.
- Resolvers name their view class by export name only. The `require` of a toolkit module and the classes themselves are outside the model. Built-in resolvers are taken to return.
- The built-in block is a table of its twenty calls, replayed in order by `RegisterAll`. The twenty literal calls are not written out one after another.
- `meta` and `options` properties given explicitly as `undefined` are not distinguished from omitted ones. `Object.assign` and the spread would copy such an `undefined` over the default.
- `viewFlags` is a set of flags, not a bit word. The numeric values of `NSVViewFlags` are not part of this model.
- `actionBarNodeOps` and any application-supplied node operations are opaque tokens. Their behaviour is defined outside `registry.ts`.
- `frame.navigate`, `instanceof Page` and `constructor.name` are the `Navigate` effect, the `isPage` flag and the `className` field of a native view. The toolkit is not modelled.
- `console.log`, `warn` and the development warning for a non-string template are logging only. Only the `Frame` warning text is modelled, as an effect.
- `isKnownView` is commented out in `registry.ts`, so it is not modelled. The facade's default `isNativeTag` is an opaque token.
- The external template compiler and `new Function` are an uninterpreted function plus an evaluation counter. Compile errors go to `onError` and are not modelled.
- `registerRuntimeCompiler(compileToFunction)` and the re-exports are module wiring.
- `NSVElement`, the node adapter and the style patching module are not part of this model.

## Findings

| source | as written | input that shows it | evidently intended | confidence | as-written member | corrected member |
|---|---|---|---|---|---|---|
| packages/runtime/src/registry.ts:81-83 | `elementMap` is a plain `{}`. The duplicate test `elementMap[normalizedName]` is truthy for properties inherited from `Object.prototype` whose names are already keys (`constructor`, `__proto__`). | `registerElement('constructor', r)` on an empty registry throws "Element for constructor already registered.". `getViewMeta('constructor')` returns `undefined` instead of throwing. | Only names registered before count as taken, as in the compile cache, which is created with `Object.create(null)`. | not executed | Registry.ConstructorRejectedAsWritten | Registry.ElementRegistry.RegisterElement |
| packages/runtime/src/registry.ts:48-52 | The same truthiness test in `getViewClass` lets an inherited property through to the `try`. There reading `entry.meta.viewFlags` (test build) or calling `entry.resolver!()` throws a TypeError, which is re-thrown as "Could not load view for: …". | `getViewClass('constructor')` on an empty registry throws "Could not load view for: constructor. TypeError: …" instead of "No known component for element constructor.". | An unregistered name fails as unknown. | not executed | Registry.GetViewClassAsWritten | Registry.ElementRegistry.GetViewClass |
