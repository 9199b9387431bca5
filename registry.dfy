/**
  The element registry of packages/runtime/src/registry.ts: a process-wide dictionary from
  normalised element names to descriptors (view metadata plus a lazily invoked resolver that
  yields the native view class), the built-in registrations made when the module loads, and
  the custom insert/remove operations of the `Frame` element.
*/
module Registry {
  import opened Wrappers
  import opened ElementNames
  import BuiltInKeys

  /** The bits of `NSVViewFlags`; a flag word is the set of bits that are on. */
  datatype ViewFlag = LayoutView | ContentView | SkipAddToDom | TestView

  type ViewFlags = set<ViewFlag>

  /** `NSVViewFlags.NONE`: no bit set. */
  const NONE: ViewFlags := {}

  /** The element-specific `nodeOps` objects: the `Frame` pair defined in this file, the action
      bar's (defined elsewhere), and any pair an application registers. */
  datatype NodeOps = FrameNodeOps | ActionBarNodeOps | AppNodeOps(id: nat)

  /** `NSVViewMeta`. */
  datatype ViewMeta = ViewMeta(viewFlags: ViewFlags, nodeOps: Option<NodeOps>)

  /** `Partial<NSVViewMeta>`: `Some` marks a property the caller supplied. An omitted `meta`
      argument is `NoMeta`, since `Object.assign` skips an undefined source. */
  datatype PartialMeta = PartialMeta(viewFlags: Option<ViewFlags>, nodeOps: Option<NodeOps>)

  const NoMeta := PartialMeta(None, None)

  /** `defaultViewMeta`. */
  const DefaultViewMeta := ViewMeta(NONE, None)

  /** A native view class, named by its export from a core module. */
  datatype ViewClass = ViewClass(exportName: string)

  /** What calling a resolver does: return a view class, or throw. */
  datatype Resolver = Returns(viewClass: ViewClass) | Throws(reason: string)

  /** `NSVElementDescriptor`; `resolver` is optional in the source. */
  datatype ElementDescriptor = ElementDescriptor(meta: ViewMeta, resolver: Option<Resolver>)

  /** Why a view class could not be loaded: the resolver threw, or there was none to call
      (`resolver!()` on `undefined` throws a TypeError inside the same `try`), or the entry had
      no `meta` whose flags could be read (a TypeError inside the same `try`). */
  datatype LoadFailure = ResolverThrew(reason: string) | NoResolver | MissingMeta

  /** The three errors the registry throws, each carrying the name as the caller spelled it. */
  datatype RegistryError =
    | UnknownElement(elementName: string)      // "No known component for element ..."
    | AlreadyRegistered(elementName: string)   // "Element for ... already registered."
    | CouldNotLoadView(elementName: string, cause: LoadFailure)  // "Could not load view for: ..."

  /** `Object.assign({}, defaultViewMeta, meta)`: each supplied property replaces the default. */
  function MergeMeta(meta: PartialMeta): (merged: ViewMeta)
    ensures merged.viewFlags == if meta.viewFlags.Some? then meta.viewFlags.value else DefaultViewMeta.viewFlags
    ensures merged.nodeOps == if meta.nodeOps.Some? then meta.nodeOps else DefaultViewMeta.nodeOps
    ensures meta == NoMeta ==> merged == DefaultViewMeta
  {
    ViewMeta(
      if meta.viewFlags.Some? then meta.viewFlags.value else DefaultViewMeta.viewFlags,
      if meta.nodeOps.Some? then meta.nodeOps else DefaultViewMeta.nodeOps)
  }

  /** Calling an optional resolver, as `entry.resolver!()` inside the `try` of `getViewClass`:
      a returned class is the result, anything thrown is wrapped with the element name. */
  function CallResolver(resolver: Option<Resolver>, elementName: string): (r: Result<ViewClass, RegistryError>)
    ensures r.Success? <==> resolver.Some? && resolver.value.Returns?
    ensures r.Success? ==> r.value == resolver.value.viewClass
    ensures r.Failure? ==> r.error.CouldNotLoadView? && r.error.elementName == elementName
    ensures resolver.None? ==> r == Failure(CouldNotLoadView(elementName, NoResolver))
    ensures resolver.Some? && resolver.value.Throws? ==>
              r == Failure(CouldNotLoadView(elementName, ResolverThrew(resolver.value.reason)))
  {
    match resolver
    case None => Failure(CouldNotLoadView(elementName, NoResolver))
    case Some(Returns(viewClass)) => Success(viewClass)
    case Some(Throws(reason)) => Failure(CouldNotLoadView(elementName, ResolverThrew(reason)))
  }

  /** The `try` block of `getViewClass` for a found entry, with its `__TEST__` branch: a test
      view and a production view are resolved by the same resolver, so the flags and the build
      mode never change the outcome. */
  function ResolveEntry(entry: ElementDescriptor, elementName: string, testBuild: bool): (r: Result<ViewClass, RegistryError>)
    ensures r == CallResolver(entry.resolver, elementName)
  {
    if testBuild && TestView in entry.meta.viewFlags then
      CallResolver(entry.resolver, elementName)
    else
      CallResolver(entry.resolver, elementName)
  }

  /** A resolver that loads the class `exportName` from its core module (the built-ins' `require`). */
  function CoreView(exportName: string): (resolver: Option<Resolver>)
    ensures resolver.Some? && resolver.value.Returns? && resolver.value.viewClass.exportName == exportName
  {
    Some(Returns(ViewClass(exportName)))
  }

  /** A `meta` argument that supplies only `viewFlags`. */
  function Flags(flags: ViewFlags): PartialMeta {
    PartialMeta(Some(flags), None)
  }

  /** The arguments of one `registerElement(name, resolver, meta)` call. */
  datatype Registration = Registration(elementName: string, resolver: Option<Resolver>, meta: PartialMeta)

  /** The key a registration is stored under. */
  function KeyOf(registration: Registration): string {
    NormalizeElementName(registration.elementName)
  }

  /** The entry a successful registration stores. */
  function EntryOf(registration: Registration): ElementDescriptor {
    ElementDescriptor(MergeMeta(registration.meta), registration.resolver)
  }

  /** No two registrations of the run share a key. */
  predicate KeysDistinct(registrations: seq<Registration>) {
    forall i, j :: 0 <= i < j < |registrations| ==> KeyOf(registrations[i]) != KeyOf(registrations[j])
  }

  /** The `elementMap` that a run of registrations, each of which succeeds, leaves behind
      when it starts from the empty map: one key per registration. */
  function Registered(registrations: seq<Registration>): (m: map<string, ElementDescriptor>)
    ensures forall i :: 0 <= i < |registrations| ==> KeyOf(registrations[i]) in m
  {
    if registrations == [] then map[]
    else
      var last := registrations[|registrations| - 1];
      Registered(registrations[..|registrations| - 1])[KeyOf(last) := EntryOf(last)]
  }

  /** When the keys are distinct, every registration of the run finds its own entry in the
      resulting map. */
  lemma {:induction false} RegisteredEntries(registrations: seq<Registration>)
    requires KeysDistinct(registrations)
    ensures forall i :: 0 <= i < |registrations| ==> Registered(registrations)[KeyOf(registrations[i])] == EntryOf(registrations[i])
  {
    if registrations != [] {
      var n := |registrations| - 1;
      var prefix, last := registrations[..n], registrations[n];
      assert KeysDistinct(prefix) by {
        forall i, j | 0 <= i < j < n ensures KeyOf(prefix[i]) != KeyOf(prefix[j]) {
          assert prefix[i] == registrations[i] && prefix[j] == registrations[j];
        }
      }
      RegisteredEntries(prefix);
      var m := Registered(registrations);
      assert m == Registered(prefix)[KeyOf(last) := EntryOf(last)];
      forall i | 0 <= i < |registrations|
        ensures m[KeyOf(registrations[i])] == EntryOf(registrations[i])
      {
        if i < n {
          assert prefix[i] == registrations[i];
          assert KeyOf(registrations[i]) != KeyOf(last);
        }
      }
    }
  }

  /** Distinct keys, worked out one registration at a time. */
  lemma KeysDistinctFromList(registrations: seq<Registration>, keys: seq<string>)
    requires |registrations| == |keys|
    requires forall i :: 0 <= i < |keys| ==> KeyOf(registrations[i]) == keys[i]
    requires forall i, j :: 0 <= i < j < |keys| ==> keys[i] != keys[j]
    ensures KeysDistinct(registrations)
  {
  }

  /** The number of calls in the built-in registration block. */
  const BuiltInCount := 20

  /** The `i`-th call of the built-in registration block, in source order. */
  function BuiltInRegistration(i: nat): (registration: Registration)
    requires i < BuiltInCount
    ensures registration.resolver.Some? && registration.resolver.value.Returns?
    ensures registration.meta.nodeOps.Some? <==> i == 8 || i == 11
  {
    match i
    // layouts
    case 0 => Registration("AbsoluteLayout", CoreView("AbsoluteLayout"), Flags({LayoutView}))
    case 1 => Registration("DockLayout", CoreView("DockLayout"), Flags({LayoutView}))
    case 2 => Registration("FlexboxLayout", CoreView("FlexboxLayout"), Flags({LayoutView}))
    case 3 => Registration("GridLayout", CoreView("GridLayout"), Flags({LayoutView}))
    case 4 => Registration("StackLayout", CoreView("StackLayout"), Flags({LayoutView}))
    case 5 => Registration("WrapLayout", CoreView("WrapLayout"), Flags({LayoutView}))
    // ContentViews
    case 6 => Registration("ContentView", CoreView("ContentView"), Flags({ContentView}))
    case 7 => Registration("ScrollView", CoreView("ScrollView"), Flags({ContentView}))
    // ActionBar
    case 8 => Registration("InternalActionBar", CoreView("ActionBar"), PartialMeta(Some({SkipAddToDom}), Some(ActionBarNodeOps)))
    case 9 => Registration("ActionItem", CoreView("ActionItem"), NoMeta)
    case 10 => Registration("NavigationButton", CoreView("NavigationButton"), NoMeta)
    // navigation
    case 11 => Registration("Frame", CoreView("Frame"), PartialMeta(None, Some(FrameNodeOps)))
    case 12 => Registration("Page", CoreView("Page"), Flags({ContentView}))
    // html
    case 13 => Registration("HtmlView", CoreView("HtmlView"), NoMeta)
    case 14 => Registration("WebView", CoreView("WebView"), NoMeta)
    // components
    case 15 => Registration("ActivityIndicator", CoreView("ActivityIndicator"), NoMeta)
    case 16 => Registration("Button", CoreView("Button"), NoMeta)
    case 17 => Registration("DatePicker", CoreView("DatePicker"), NoMeta)
    case 18 => Registration("Image", CoreView("Image"), NoMeta)
    case _ => Registration("Label", CoreView("Label"), NoMeta)
  }

  /** The calls of the built-in registration block as the sequence they are made in. */
  function BuiltInRegistrations(): seq<Registration> {
    seq(BuiltInCount, i requires 0 <= i < BuiltInCount => BuiltInRegistration(i))
  }

  lemma BuiltInKeyAt(i: nat)
    requires i < BuiltInCount
    ensures KeyOf(BuiltInRegistration(i)) == BuiltInKeys.BuiltInKeyList[i]
  {
    match i
    case 0 => BuiltInKeys.AbsoluteLayoutKey();
    case 1 => BuiltInKeys.DockLayoutKey();
    case 2 => BuiltInKeys.FlexboxLayoutKey();
    case 3 => BuiltInKeys.GridLayoutKey();
    case 4 => BuiltInKeys.StackLayoutKey();
    case 5 => BuiltInKeys.WrapLayoutKey();
    case 6 => BuiltInKeys.ContentViewKey();
    case 7 => BuiltInKeys.ScrollViewKey();
    case 8 => BuiltInKeys.InternalActionBarKey();
    case 9 => BuiltInKeys.ActionItemKey();
    case 10 => BuiltInKeys.NavigationButtonKey();
    case 11 => BuiltInKeys.FrameKey();
    case 12 => BuiltInKeys.PageKey();
    case 13 => BuiltInKeys.HtmlViewKey();
    case 14 => BuiltInKeys.WebViewKey();
    case 15 => BuiltInKeys.ActivityIndicatorKey();
    case 16 => BuiltInKeys.ButtonKey();
    case 17 => BuiltInKeys.DatePickerKey();
    case 18 => BuiltInKeys.ImageKey();
    case _ => BuiltInKeys.LabelKey();
  }

  /** No two built-in registrations share a key, so none of them can hit the duplicate error. */
  lemma BuiltInKeysDistinct()
    ensures KeysDistinct(BuiltInRegistrations())
  {
    BuiltInKeysComputed();
    BuiltInKeys.KeyListDistinct();
    KeysDistinctFromList(BuiltInRegistrations(), BuiltInKeys.BuiltInKeyList);
  }

  lemma BuiltInKeysComputed()
    ensures |BuiltInRegistrations()| == |BuiltInKeys.BuiltInKeyList|
    ensures forall i :: 0 <= i < BuiltInCount ==> KeyOf(BuiltInRegistrations()[i]) == BuiltInKeys.BuiltInKeyList[i]
  {
    forall i | 0 <= i < BuiltInCount
      ensures KeyOf(BuiltInRegistrations()[i]) == BuiltInKeys.BuiltInKeyList[i]
    {
      BuiltInKeyAt(i);
      assert BuiltInRegistrations()[i] == BuiltInRegistration(i);
    }
    BuiltInKeys.KeyListDistinct();
  }

  /** The metadata of the built-ins by group: the six layouts carry `LAYOUT_VIEW`, `ContentView`,
      `ScrollView` and `Page` carry `CONTENT_VIEW`, the action bar skips the DOM and brings its
      own node operations, `Frame` keeps the default flags with its own node operations, and
      every other element gets the default metadata. */
  lemma BuiltInMeta(i: nat)
    requires i < BuiltInCount
    ensures EntryOf(BuiltInRegistration(i)).meta ==
              if i < 6 then ViewMeta({LayoutView}, None)
              else if i in {6, 7, 12} then ViewMeta({ContentView}, None)
              else if i == 8 then ViewMeta({SkipAddToDom}, Some(ActionBarNodeOps))
              else if i == 11 then ViewMeta(NONE, Some(FrameNodeOps))
              else DefaultViewMeta
  {
  }

  /** A native view object: the name of its class (`constructor.name`), whether it is an
      instance of the toolkit's `Page` class, and an identity. */
  datatype NativeView = NativeView(id: nat, className: string, isPage: bool)

  /** An `NSVElement`, seen through the native view it wraps. */
  datatype Element = Element(nativeView: NativeView)

  /** What a `Frame` node operation does: navigate the frame to a page whose `create()`
      returns the given view, or emit a development warning. */
  datatype FrameEffect = Navigate(frame: NativeView, page: NativeView) | Warn(message: string)

  const FrameWarningPrefix := "<Frame> must only contain <Page> elements - got <"
  const FrameWarningSuffix := "> instead."

  /** The warning for a non-page child, naming the child's class. */
  function FrameChildWarning(className: string): (message: string)
    ensures |message| == |FrameWarningPrefix| + |className| + |FrameWarningSuffix|
    ensures message[..|FrameWarningPrefix|] == FrameWarningPrefix
    ensures message[|FrameWarningPrefix|..|FrameWarningPrefix| + |className|] == className
    ensures message[|FrameWarningPrefix| + |className|..] == FrameWarningSuffix
  {
    FrameWarningPrefix + className + FrameWarningSuffix
  }

  /** The class name can be read back from the warning, so different classes give different warnings. */
  lemma FrameChildWarningInjective(a: string, b: string)
    requires FrameChildWarning(a) == FrameChildWarning(b)
    ensures a == b
  {
    var n := |FrameWarningPrefix|;
    assert |a| == |b|;
    assert a == FrameChildWarning(a)[n..n + |a|];
  }

  /** The `insert` node operation of `Frame`: a page child becomes the frame's navigation
      target; any other child is not inserted and, in a development build, draws one warning.
      The insertion index plays no part. */
  function FrameInsert(child: Element, parent: Element, atIndex: Option<int>, devBuild: bool): (effects: seq<FrameEffect>)
    ensures |effects| <= 1
    ensures (|effects| == 1 && effects[0].Navigate?) <==> child.nativeView.isPage
    ensures child.nativeView.isPage ==> effects[0] == Navigate(parent.nativeView, child.nativeView)
    ensures !child.nativeView.isPage ==> (effects != [] <==> devBuild)
    ensures !child.nativeView.isPage && devBuild ==> effects == [Warn(FrameChildWarning(child.nativeView.className))]
  {
    if child.nativeView.isPage then [Navigate(parent.nativeView, child.nativeView)]
    else if devBuild then [Warn(FrameChildWarning(child.nativeView.className))]
    else []
  }

  /** The `remove` node operation of `Frame` does nothing at all. */
  function FrameRemove(child: Element, parent: Element): (effects: seq<FrameEffect>)
    ensures effects == []
  {
    []
  }

  /** Inserting into a frame depends neither on the index nor, for a page, on the build mode. */
  lemma FrameInsertIgnoresIndex(child: Element, parent: Element, i: Option<int>, j: Option<int>, devBuild: bool)
    ensures FrameInsert(child, parent, i, devBuild) == FrameInsert(child, parent, j, devBuild)
    ensures child.nativeView.isPage ==> FrameInsert(child, parent, i, devBuild) == FrameInsert(child, parent, i, !devBuild)
  {
  }

  /** The properties every plain object inherits from `Object.prototype` whose names are
      already registry keys (lower-case, no hyphen); `elementMap[key]` is truthy for them. */
  const InheritedKeys: set<string> := {"constructor", "__proto__"}

  /** What `elementMap[key]` reads on the plain object `{}` that holds the registry. */
  datatype Lookup = OwnEntry(entry: ElementDescriptor) | InheritedProperty | Undefined

  function LookupAsWritten(elementMap: map<string, ElementDescriptor>, key: string): (r: Lookup)
    ensures r.Undefined? <==> key !in elementMap && key !in InheritedKeys
    ensures key in elementMap ==> r == OwnEntry(elementMap[key])
  {
    if key in elementMap then OwnEntry(elementMap[key])
    else if key in InheritedKeys then InheritedProperty
    else Undefined
  }

  /** `registerElement` as written: the duplicate test is the truthiness of `elementMap[key]`,
      which inherited properties pass. */
  function RegisterElementAsWritten(elementMap: map<string, ElementDescriptor>, elementName: string,
                                    resolver: Option<Resolver>, meta: PartialMeta): (r: Result<map<string, ElementDescriptor>, RegistryError>)
    ensures var key := NormalizeElementName(elementName);
      (r.Failure? <==> key in elementMap || key in InheritedKeys) &&
      (r.Failure? ==> r.error == AlreadyRegistered(elementName)) &&
      (r.Success? ==> r.value == elementMap[key := ElementDescriptor(MergeMeta(meta), resolver)])
  {
    var key := NormalizeElementName(elementName);
    if !LookupAsWritten(elementMap, key).Undefined? then Failure(AlreadyRegistered(elementName))
    else Success(elementMap[key := ElementDescriptor(MergeMeta(meta), resolver)])
  }

  /** `getViewMeta` as written: an inherited property passes the `!entry` test and its
      `meta` property, `undefined`, is returned (`None`). */
  function GetViewMetaAsWritten(elementMap: map<string, ElementDescriptor>, elementName: string): (r: Result<Option<ViewMeta>, RegistryError>)
    ensures var key := NormalizeElementName(elementName);
      (r.Failure? <==> key !in elementMap && key !in InheritedKeys) &&
      (key in elementMap ==> r == Success(Some(elementMap[key].meta))) &&
      (key !in elementMap && key in InheritedKeys ==> r == Success(None))
  {
    match LookupAsWritten(elementMap, NormalizeElementName(elementName))
    case OwnEntry(entry) => Success(Some(entry.meta))
    case InheritedProperty => Success(None)
    case Undefined => Failure(UnknownElement(elementName))
  }

  /** `getViewClass` as written: an inherited property passes the `!entry` test, and the `try`
      then throws a TypeError, wrapped as "could not load view": in a test build on reading
      the flags of its undefined `meta`, otherwise on calling its undefined `resolver`. */
  function GetViewClassAsWritten(elementMap: map<string, ElementDescriptor>, elementName: string, testBuild: bool): (r: Result<ViewClass, RegistryError>)
    ensures var key := NormalizeElementName(elementName);
      (r == Failure(UnknownElement(elementName)) <==> key !in elementMap && key !in InheritedKeys) &&
      (key in elementMap ==> r == CallResolver(elementMap[key].resolver, elementName)) &&
      (key !in elementMap && key in InheritedKeys ==>
         r == Failure(CouldNotLoadView(elementName, if testBuild then MissingMeta else NoResolver)))
  {
    match LookupAsWritten(elementMap, NormalizeElementName(elementName))
    case OwnEntry(entry) => ResolveEntry(entry, elementName, testBuild)
    case InheritedProperty =>
      if testBuild then Failure(CouldNotLoadView(elementName, MissingMeta))
      else Failure(CouldNotLoadView(elementName, NoResolver))
    case Undefined => Failure(UnknownElement(elementName))
  }

  /** `constructor` is its own key, and no element is registered under it. Yet on the empty
      registry it is refused as already registered, it reads back an undefined meta instead of
      failing as unknown, and its class lookup fails as a load error instead of as unknown. */
  lemma ConstructorRejectedAsWritten(testBuild: bool)
    ensures NormalizeElementName("constructor") == "constructor"
    ensures RegisterElementAsWritten(map[], "constructor", None, NoMeta) == Failure(AlreadyRegistered("constructor"))
    ensures GetViewMetaAsWritten(map[], "constructor") == Success(None)
    ensures GetViewClassAsWritten(map[], "constructor", testBuild).Failure?
    ensures GetViewClassAsWritten(map[], "constructor", testBuild).error.CouldNotLoadView?
  {
    KeyOfHyphenFreeName("constructor", "constructor");
  }

  /** The registry state: the module-level `elementMap` and the `__TEST__` build constant. */
  class ElementRegistry {
    var elementMap: map<string, ElementDescriptor>
    const testBuild: bool

    /** Every key is a normalised name: only normalised names are ever stored. */
    ghost predicate Valid()
      reads this
    {
      forall key :: key in elementMap ==> IsNormalized(key)
    }

    /** The empty `elementMap` before the built-in block runs. */
    constructor (testBuild: bool)
      ensures Valid()
      ensures elementMap == map[] && this.testBuild == testBuild
    {
      elementMap := map[];
      this.testBuild := testBuild;
    }

    /** `getViewMeta`: the stored meta of the entry the name normalises to. */
    function GetViewMeta(elementName: string): (r: Result<ViewMeta, RegistryError>)
      reads this
      ensures r.Failure? <==> NormalizeElementName(elementName) !in elementMap
      ensures r.Failure? ==> r.error == UnknownElement(elementName)
      ensures r.Success? ==> r.value == elementMap[NormalizeElementName(elementName)].meta
    {
      var key := NormalizeElementName(elementName);
      if key in elementMap then Success(elementMap[key].meta) else Failure(UnknownElement(elementName))
    }

    /** `getViewClass`: unknown names fail as in `getViewMeta`; a known one yields whatever its
        resolver yields, whatever its flags, with resolver failures wrapped. */
    function GetViewClass(elementName: string): (r: Result<ViewClass, RegistryError>)
      reads this
      ensures NormalizeElementName(elementName) !in elementMap ==> r == Failure(UnknownElement(elementName))
      ensures NormalizeElementName(elementName) in elementMap ==>
                r == CallResolver(elementMap[NormalizeElementName(elementName)].resolver, elementName)
    {
      var key := NormalizeElementName(elementName);
      if key !in elementMap then Failure(UnknownElement(elementName))
      else ResolveEntry(elementMap[key], elementName, testBuild)
    }

    /** Every stored key finds its own entry: a key is its own normalised name. */
    lemma StoredKeysFound()
      requires Valid()
      ensures forall key :: key in elementMap ==> GetViewMeta(key) == Success(elementMap[key].meta)
      ensures forall key :: key in elementMap ==> GetViewClass(key) == CallResolver(elementMap[key].resolver, key)
    {
      forall key | key in elementMap
        ensures NormalizeElementName(key) == key
      {
        assert IsNormalized(key);
      }
    }

    /** The registry answers for a registration exactly what the registration supplied. */
    ghost predicate Resolves(registration: Registration)
      reads this
    {
      GetViewMeta(registration.elementName) == Success(EntryOf(registration).meta) &&
      GetViewClass(registration.elementName) == CallResolver(registration.resolver, registration.elementName)
    }

    /** `registerElement`: a name whose key is taken fails and changes nothing; otherwise
        exactly that key is added, holding the merged meta and the resolver. */
    method RegisterElement(elementName: string, resolver: Option<Resolver>, meta: PartialMeta)
      returns (r: Outcome<RegistryError>)
      requires Valid()
      modifies this
      ensures Valid()
      ensures var key := NormalizeElementName(elementName);
        if key in old(elementMap) then
          r == Fail(AlreadyRegistered(elementName)) && elementMap == old(elementMap)
        else
          r == Pass && elementMap == old(elementMap)[key := ElementDescriptor(MergeMeta(meta), resolver)]
      ensures r.Pass? ==> forall other :: NormalizeElementName(other) == NormalizeElementName(elementName) ==>
                GetViewMeta(other) == Success(MergeMeta(meta))
      ensures forall other :: NormalizeElementName(other) != NormalizeElementName(elementName) ==>
                GetViewMeta(other) == old(GetViewMeta(other)) && GetViewClass(other) == old(GetViewClass(other))
    {
      var key := NormalizeElementName(elementName);
      var mergedMeta := MergeMeta(meta);
      if key in elementMap {
        return Fail(AlreadyRegistered(elementName));
      }
      NormalizeIdempotent(elementName);
      elementMap := elementMap[key := ElementDescriptor(mergedMeta, resolver)];
      r := Pass;
    }

    /** `registerTestElement`: in a test build it overwrites the entry, never failing, and adds
        `TEST_VIEW` to the merged flags; otherwise it does nothing. */
    method RegisterTestElement(elementName: string, resolver: Option<Resolver>, meta: PartialMeta)
      requires Valid()
      modifies this
      ensures Valid()
      ensures var key := NormalizeElementName(elementName);
        var merged := MergeMeta(meta);
        elementMap == if testBuild then
          old(elementMap)[key := ElementDescriptor(merged.(viewFlags := merged.viewFlags + {TestView}), resolver)]
        else old(elementMap)
      ensures testBuild ==> GetViewMeta(elementName).Success? && TestView in GetViewMeta(elementName).value.viewFlags
      ensures testBuild ==> GetViewClass(elementName) == CallResolver(resolver, elementName)
    {
      if testBuild {
        var key := NormalizeElementName(elementName);
        var mergedMeta := MergeMeta(meta);
        mergedMeta := mergedMeta.(viewFlags := mergedMeta.viewFlags + {TestView});
        NormalizeIdempotent(elementName);
        elementMap := elementMap[key := ElementDescriptor(mergedMeta, resolver)];
      }
    }

    /** A run of `registerElement` calls whose names have pairwise distinct keys, made in
        order on the empty registry: every call succeeds, and the map ends up as
        `Registered` says. */
    method RegisterAll(registrations: seq<Registration>) returns (r: Outcome<RegistryError>)
      requires Valid() && elementMap == map[]
      requires KeysDistinct(registrations)
      modifies this
      ensures Valid() && r == Pass
      ensures elementMap == Registered(registrations)
      ensures forall i :: 0 <= i < |registrations| ==> Resolves(registrations[i])
    {
      for i := 0 to |registrations|
        invariant Valid()
        invariant elementMap == Registered(registrations[..i])
        invariant forall j :: i <= j < |registrations| ==> KeyOf(registrations[j]) !in elementMap
      {
        var registration := registrations[i];
        assert registrations[..i + 1][..i] == registrations[..i];
        var outcome := RegisterElement(registration.elementName, registration.resolver, registration.meta);
        assert outcome == Pass;
      }
      assert registrations[..|registrations|] == registrations;
      RegisteredEntries(registrations);
      r := Pass;
    }

    /** The built-in registration block, run once on the empty map when the module loads:
        every call succeeds, so the map holds exactly the built-in entries. */
    method RegisterBuiltInElements() returns (r: Outcome<RegistryError>)
      requires Valid() && elementMap == map[]
      modifies this
      ensures Valid() && r == Pass
      ensures elementMap == Registered(BuiltInRegistrations())
      ensures forall i :: 0 <= i < |BuiltInRegistrations()| ==> Resolves(BuiltInRegistrations()[i])
    {
      BuiltInKeysDistinct();
      r := RegisterAll(BuiltInRegistrations());
    }
  }
}
