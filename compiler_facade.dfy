/**
  The compiler facade of packages/nativescript-vue/src/index.ts: `compileToFunction` turns a
  template string into a render function, asking the external template compiler only on the
  first request for a given string and answering every later request for the same string from
  `compileCache`, whatever options come with it.
*/
module CompilerFacade {
  import opened Wrappers

  /** The `template` argument: a string, or a value of any other type. */
  datatype TemplateInput = TemplateString(text: string) | NonString

  /** The `isNativeTag` option: the facade's own default asks the element registry whether it
      knows the tag; a caller may supply a predicate of its own. */
  datatype TagPredicate = RegistryIsKnownView | CallerTagPredicate(id: nat)

  /** The `onError` option: the facade's default ignores compiler errors. */
  datatype ErrorHandler = IgnoreErrors | CallerErrorHandler(id: nat)

  /** The caller's `CompilerOptions`; `Some` marks a property the caller supplied, and any other
      property the caller supplies is kept in `others`. */
  datatype CompilerOptions = CompilerOptions(
    isNativeTag: Option<TagPredicate>,
    hoistStatic: Option<bool>,
    onError: Option<ErrorHandler>,
    others: map<string, nat>)

  /** An omitted `options` argument: spreading `undefined` adds nothing. */
  const NoOptions := CompilerOptions(None, None, None, map[])

  /** The options object that reaches the compiler. */
  datatype EffectiveOptions = EffectiveOptions(
    isNativeTag: TagPredicate,
    hoistStatic: bool,
    onError: ErrorHandler,
    others: map<string, nat>)

  /** The three defaults the facade writes before spreading the caller's options. */
  const DefaultOptions := EffectiveOptions(RegistryIsKnownView, true, IgnoreErrors, map[])

  /** `{isNativeTag, hoistStatic: true, onError() {}, ...options}`: a property the caller
      supplies replaces the default, the others keep it. */
  function MergeOptions(options: CompilerOptions): (effective: EffectiveOptions)
    ensures effective.isNativeTag == if options.isNativeTag.Some? then options.isNativeTag.value else DefaultOptions.isNativeTag
    ensures effective.hoistStatic == if options.hoistStatic.Some? then options.hoistStatic.value else DefaultOptions.hoistStatic
    ensures effective.onError == if options.onError.Some? then options.onError.value else DefaultOptions.onError
    ensures effective.others == options.others
    ensures options == NoOptions ==> effective == DefaultOptions
  {
    EffectiveOptions(
      if options.isNativeTag.Some? then options.isNativeTag.value else DefaultOptions.isNativeTag,
      if options.hoistStatic.Some? then options.hoistStatic.value else DefaultOptions.hoistStatic,
      if options.onError.Some? then options.onError.value else DefaultOptions.onError,
      options.others)
  }

  /** The options a caller must pass to reach a given effective options object: spelling out
      every property reproduces it exactly, so no default survives a full override. */
  function Spelled(effective: EffectiveOptions): CompilerOptions {
    CompilerOptions(Some(effective.isNativeTag), Some(effective.hoistStatic), Some(effective.onError), effective.others)
  }

  lemma MergeOptionsFullOverride(effective: EffectiveOptions)
    ensures MergeOptions(Spelled(effective)) == effective
  {
  }

  /** A render function: `NOOP`, or the function that `new Function('Vue', code)(runtime)`
      produced for the `instance`-th compilation. Each evaluation makes a new function object. */
  datatype RenderFunction = Noop | Render(code: string, instance: nat)

  /** The cache agrees with the log of compiled templates: the `i`-th compilation compiled
      `compileLog[i]` and is cached under that string, and nothing else is cached. */
  ghost predicate CacheMatchesLog(compileCache: map<string, RenderFunction>, compileLog: seq<string>) {
    (forall template :: template in compileCache ==>
       compileCache[template].Render? && compileCache[template].instance < |compileLog| &&
       compileLog[compileCache[template].instance] == template) &&
    (forall i :: 0 <= i < |compileLog| ==>
       compileLog[i] in compileCache && compileCache[compileLog[i]].instance == i)
  }

  /** No template string is ever compiled twice. */
  lemma CompiledOnce(compileCache: map<string, RenderFunction>, compileLog: seq<string>)
    requires CacheMatchesLog(compileCache, compileLog)
    ensures forall i, j :: 0 <= i < j < |compileLog| ==> compileLog[i] != compileLog[j]
  {
    forall i, j | 0 <= i < j < |compileLog|
      ensures compileLog[i] != compileLog[j]
    {
      assert compileCache[compileLog[i]].instance == i;
      assert compileCache[compileLog[j]].instance == j;
    }
  }

  /** Distinct template strings are cached as distinct render functions. */
  lemma CachedFunctionsDistinct(compileCache: map<string, RenderFunction>, compileLog: seq<string>, a: string, b: string)
    requires CacheMatchesLog(compileCache, compileLog)
    requires a in compileCache && b in compileCache && a != b
    ensures compileCache[a] != compileCache[b]
  {
  }

  /** The module-level `compileCache` (created with no prototype, so only strings stored in it
      are ever found), with the log of compilations it implies and the external compiler. */
  class TemplateCompiler {
    var compileCache: map<string, RenderFunction>
    var compileLog: seq<string>
    /** The external template compiler: the code it generates for a template and options. */
    const compile: (string, EffectiveOptions) -> string

    ghost predicate Valid()
      reads this
    {
      CacheMatchesLog(compileCache, compileLog)
    }

    constructor (compile: (string, EffectiveOptions) -> string)
      ensures Valid()
      ensures compileCache == map[] && compileLog == [] && this.compile == compile
    {
      compileCache := map[];
      compileLog := [];
      this.compile := compile;
    }

    /** `compileToFunction`: a non-string template gives `NOOP`; a string seen before gives
        the render function cached for it, whatever the options; a new string is compiled
        once with the merged options, and its fresh render function is cached and returned. */
    method CompileToFunction(template: TemplateInput, options: CompilerOptions) returns (render: RenderFunction)
      requires Valid()
      modifies this
      ensures Valid()
      ensures render.Render? <==> template.TemplateString?
      ensures template.NonString? ==> render == Noop && unchanged(this)
      ensures template.TemplateString? && template.text in old(compileCache) ==>
                render == old(compileCache)[template.text] && unchanged(this)
      ensures template.TemplateString? && template.text !in old(compileCache) ==>
                render == Render(compile(template.text, MergeOptions(options)), old(|compileLog|)) &&
                compileCache == old(compileCache)[template.text := render] &&
                compileLog == old(compileLog) + [template.text]
    {
      if template.NonString? {
        return Noop;
      }
      var key := template.text;
      if key in compileCache {
        return compileCache[key];
      }
      var code := compile(key, MergeOptions(options));
      render := Render(code, |compileLog|);
      compileCache := compileCache[key := render];
      compileLog := compileLog + [key];
    }
  }

  /** Two requests for the same string give the same render function, and the compiler runs
      at most once between them, with the first request's options. */
  method CompileSameTemplateTwice(compiler: TemplateCompiler, text: string, first: CompilerOptions, second: CompilerOptions)
    returns (r1: RenderFunction, r2: RenderFunction)
    requires compiler.Valid()
    modifies compiler
    ensures compiler.Valid()
    ensures r1 == r2 && r1.Render?
    ensures text !in old(compiler.compileCache) ==>
              r1.code == compiler.compile(text, MergeOptions(first)) &&
              compiler.compileLog == old(compiler.compileLog) + [text]
    ensures text in old(compiler.compileCache) ==> unchanged(compiler)
  {
    r1 := compiler.CompileToFunction(TemplateString(text), first);
    r2 := compiler.CompileToFunction(TemplateString(text), second);
  }

  /** Requests for two different strings are cached independently: both end up cached, each
      under its own render function. */
  method CompileTwoTemplates(compiler: TemplateCompiler, a: string, b: string, options: CompilerOptions)
    returns (ra: RenderFunction, rb: RenderFunction)
    requires compiler.Valid() && a != b
    modifies compiler
    ensures compiler.Valid()
    ensures a in compiler.compileCache && compiler.compileCache[a] == ra
    ensures b in compiler.compileCache && compiler.compileCache[b] == rb
    ensures ra != rb
    ensures forall other :: other != a && other != b && other in old(compiler.compileCache) ==>
              other in compiler.compileCache && compiler.compileCache[other] == old(compiler.compileCache[other])
  {
    ra := compiler.CompileToFunction(TemplateString(a), options);
    rb := compiler.CompileToFunction(TemplateString(b), options);
    CachedFunctionsDistinct(compiler.compileCache, compiler.compileLog, a, b);
  }
}
