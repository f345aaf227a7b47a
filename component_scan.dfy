/** The parser of the `<context:component-scan/>` element: it reads the element's attributes and
    its include/exclude filter children into component-scan metadata, hands the metadata to the
    scanner, and registers the scanned beans (and, unless switched off, the annotation-config
    processors) as one composite component. The XML element is an attribute map plus an ordered
    list of child nodes; class loading is a lookup in a table of class descriptors. */
module ComponentScan {
  import opened Wrappers
  import opened StringUtils

  const BASE_PACKAGE_ATTRIBUTE := "base-package"
  const RESOURCE_PATTERN_ATTRIBUTE := "resource-pattern"
  const USE_DEFAULT_FILTERS_ATTRIBUTE := "use-default-filters"
  const ANNOTATION_CONFIG_ATTRIBUTE := "annotation-config"
  const NAME_GENERATOR_ATTRIBUTE := "name-generator"
  const SCOPE_RESOLVER_ATTRIBUTE := "scope-resolver"
  const SCOPED_PROXY_ATTRIBUTE := "scoped-proxy"
  const EXCLUDE_FILTER_ELEMENT := "exclude-filter"
  const INCLUDE_FILTER_ELEMENT := "include-filter"
  const FILTER_TYPE_ATTRIBUTE := "type"
  const FILTER_EXPRESSION_ATTRIBUTE := "expression"

  /** Fully qualified names of the strategy and filter interfaces the parser checks against. */
  const TYPE_FILTER := "org.springframework.core.type.filter.TypeFilter"
  const BEAN_NAME_GENERATOR := "org.springframework.beans.factory.support.BeanNameGenerator"
  const SCOPE_METADATA_RESOLVER := "org.springframework.context.annotation.ScopeMetadataResolver"


  // ---------------------------------------------------------------------------------------------
  // The document

  /** An element of the bean definition document. `localName` is the name without namespace
      prefix that the parser delegate reports; `tagName` is the qualified name. */
  datatype Element = Element(tagName: string, localName: string, attributes: map<string, string>, childNodes: seq<Node>)

  /** A child node: an element, or any other kind of node (text, comment, processing instruction). */
  datatype Node = ElementNode(element: Element) | OtherNode

  predicate HasAttribute(e: Element, name: string)
  {
    name in e.attributes
  }

  /** The DOM's getAttribute: the empty string for an attribute that is not there. */
  function GetAttribute(e: Element, name: string): (v: string)
    ensures !HasAttribute(e, name) ==> v == ""
  {
    if name in e.attributes then e.attributes[name] else ""
  }

  // ---------------------------------------------------------------------------------------------
  // Classes, the class loader and the exceptions the parser throws

  datatype DefaultConstructor = NoDefaultConstructor | PublicDefaultConstructor | NonPublicDefaultConstructor

  /** What the parser learns about a loaded class: its name, the names of every class and interface
      it is assignable to, whether it can be instantiated at all (not an interface, not abstract)
      and what kind of zero-argument constructor it declares. */
  datatype ClassDescriptor = ClassDescriptor(
    name: string,
    supertypes: set<string>,
    isConcrete: bool,
    defaultConstructor: DefaultConstructor)

  /** `type.isAssignableFrom(c)`. */
  predicate IsAssignableTo(c: ClassDescriptor, typeName: string)
  {
    typeName == c.name || typeName in c.supertypes
  }

  /** Class.newInstance succeeds only through a public zero-argument constructor. */
  predicate CanNewInstance(c: ClassDescriptor)
  {
    c.isConcrete && c.defaultConstructor == PublicDefaultConstructor
  }

  /** BeanUtils.instantiateClass makes a non-public zero-argument constructor accessible. */
  predicate CanInstantiateClass(c: ClassDescriptor)
  {
    c.isConcrete && c.defaultConstructor != NoDefaultConstructor
  }

  /** Everything the parser takes from its environment: the classes the class loader can load,
      and the expressions that the regular-expression compiler and the AspectJ type-pattern
      parser reject. */
  datatype Context = Context(
    classes: map<string, ClassDescriptor>,
    rejectedRegexes: set<string>,
    rejectedTypePatterns: set<string>)

  /** A class loader that loads every class under its own name. */
  predicate ConsistentLoader(ctx: Context)
  {
    forall n :: n in ctx.classes ==> ctx.classes[n].name == n
  }

  /** The exceptions parsing throws or reports, one constructor per cause. */
  datatype Exception =
    | StrategyClassNotFound(className: string, strategyType: string)
    | StrategyNotInstantiable(className: string, strategyType: string)
    | NotAStrategyImplementation(strategyType: string)
    | BothScopeAttributes
    | UnsupportedScopedProxy
    | TypeFilterClassNotFound(expression: string)
    | NotATypeFilter(expression: string)
    | UnsupportedFilterType(filterType: string)
    /** BeanUtils could not instantiate the custom filter class. */
    | FilterNotInstantiable(className: string)
    /** The regular-expression compiler rejected the expression. */
    | InvalidRegex(expression: string)
    /** The AspectJ type-pattern parser rejected the expression. */
    | InvalidTypePattern(expression: string)

  /** The exception classes thrown; AspectJParserException is AspectJ's
      org.aspectj.weaver.patterns.ParserException. */
  datatype ExceptionClass = IllegalArgumentException | FatalBeanException | BeanInstantiationException | AspectJParserException

  /** The Java class of the exception (PatternSyntaxException is an IllegalArgumentException). */
  function ClassOf(ex: Exception): ExceptionClass
  {
    match ex
    case TypeFilterClassNotFound(_) => FatalBeanException
    case FilterNotInstantiable(_) => BeanInstantiationException
    case InvalidTypePattern(_) => AspectJParserException
    case _ => IllegalArgumentException
  }

  /** The exceptions whose message text the parser itself writes. */
  predicate WrittenHere(ex: Exception)
  {
    !(ex.FilterNotInstantiable? || ex.InvalidRegex? || ex.InvalidTypePattern?)
  }

  /** `tail` is what `s` ends with, after at least one character. */
  predicate ProperSuffix(tail: string, s: string)
  {
    |tail| < |s| && s[|s| - |tail|..] == tail
  }

  /** A text that follows a non-empty prefix is the end of the whole. */
  lemma EndsIn(prefix: string, tail: string)
    requires prefix != []
    ensures ProperSuffix(tail, prefix + tail)
  {
    assert (prefix + tail)[|prefix|..] == tail;
  }

  /** The message text of an exception the parser writes. */
  function Message(ex: Exception): string
    requires WrittenHere(ex)
  {
    match ex
    case StrategyClassNotFound(className, strategyType) =>
      "Class [" + className + "] for strategy [" + strategyType + "] not found"
    case StrategyNotInstantiable(className, strategyType) =>
      "Unable to instantiate class [" + className + "] for strategy [" + strategyType + "]. A zero-argument constructor is required"
    case NotAStrategyImplementation(strategyType) =>
      "Provided class name must be an implementation of interface " + strategyType
    case BothScopeAttributes =>
      "Cannot define both 'scope-resolver' and 'scoped-proxy' on <component-scan> tag"
    case UnsupportedScopedProxy =>
      "scoped-proxy only supports 'no', 'interfaces' and 'targetClass'"
    case TypeFilterClassNotFound(expression) =>
      "Type filter class not found: " + expression
    case NotATypeFilter(expression) =>
      "Class is not assignable to [" + TYPE_FILTER + "]: " + expression
    case UnsupportedFilterType(filterType) =>
      "Unsupported filter type: " + filterType
  }

  /** An object created from a user-named class. */
  datatype Instance = Instance(ofClass: ClassDescriptor)

  // ---------------------------------------------------------------------------------------------
  // Component-scan metadata

  datatype ScopedProxyMode = No | Interfaces | TargetClass

  datatype TypeFilter =
    | AnnotationTypeFilter(annotationType: ClassDescriptor)
    | AssignableTypeFilter(targetType: ClassDescriptor)
    | AspectJTypeFilter(typePattern: string)
    | RegexPatternTypeFilter(pattern: string)
    | CustomTypeFilter(filter: Instance)

  datatype ComponentScanMetadata = ComponentScanMetadata(
    basePackages: seq<string>,
    includeAnnotationConfig: bool,
    useDefaultFilters: bool,
    resourcePattern: string,
    beanNameGenerator: Option<Instance>,
    scopeMetadataResolver: Option<Instance>,
    scopedProxyMode: Option<ScopedProxyMode>,
    includeFilters: seq<TypeFilter>,
    excludeFilters: seq<TypeFilter>)

  /** A freshly constructed metadata object, before the parser sets anything. */
  const NEW_METADATA := ComponentScanMetadata(
    basePackages := [],
    includeAnnotationConfig := true,
    useDefaultFilters := true,
    resourcePattern := "**/*.class",
    beanNameGenerator := None,
    scopeMetadataResolver := None,
    scopedProxyMode := None,
    includeFilters := [],
    excludeFilters := [])

  // ---------------------------------------------------------------------------------------------
  // Strategies and type filters

  /** Loads `className`, instantiates it through its public zero-argument constructor and checks
      that the instance implements `strategyType`; every failure is an IllegalArgumentException. */
  function InstantiateUserDefinedStrategy(className: string, strategyType: string, ctx: Context): (r: Result<Instance, Exception>)
    ensures r.Success? <==>
      className in ctx.classes && CanNewInstance(ctx.classes[className]) && IsAssignableTo(ctx.classes[className], strategyType)
    ensures r.Success? ==> r.value.ofClass == ctx.classes[className] && IsAssignableTo(r.value.ofClass, strategyType)
    ensures r.Failure? ==> ClassOf(r.error) == IllegalArgumentException
  {
    if className !in ctx.classes then
      Failure(StrategyClassNotFound(className, strategyType))
    else if !CanNewInstance(ctx.classes[className]) then
      Failure(StrategyNotInstantiable(className, strategyType))
    else if !IsAssignableTo(ctx.classes[className], strategyType) then
      Failure(NotAStrategyImplementation(strategyType))
    else
      Success(Instance(ctx.classes[className]))
  }

  /** Which of the three causes a failed strategy instantiation reports. */
  lemma StrategyErrors(className: string, strategyType: string, ctx: Context)
    ensures className !in ctx.classes ==>
      InstantiateUserDefinedStrategy(className, strategyType, ctx) == Failure(StrategyClassNotFound(className, strategyType))
    ensures className in ctx.classes && !CanNewInstance(ctx.classes[className]) ==>
      InstantiateUserDefinedStrategy(className, strategyType, ctx) == Failure(StrategyNotInstantiable(className, strategyType))
    ensures className in ctx.classes && CanNewInstance(ctx.classes[className]) && !IsAssignableTo(ctx.classes[className], strategyType) ==>
      InstantiateUserDefinedStrategy(className, strategyType, ctx) == Failure(NotAStrategyImplementation(strategyType))
  {
  }

  const SUPPORTED_FILTER_TYPES: set<string> := {"annotation", "assignable", "aspectj", "regex", "custom"}

  /** The `type` attribute value that declares a filter of this kind. */
  function FilterTypeName(f: TypeFilter): (s: string)
    ensures s in SUPPORTED_FILTER_TYPES
  {
    match f
    case AnnotationTypeFilter(_) => "annotation"
    case AssignableTypeFilter(_) => "assignable"
    case AspectJTypeFilter(_) => "aspectj"
    case RegexPatternTypeFilter(_) => "regex"
    case CustomTypeFilter(_) => "custom"
  }

  /** The `expression` attribute value that declares this filter. */
  function FilterExpression(f: TypeFilter): string
  {
    match f
    case AnnotationTypeFilter(c) => c.name
    case AssignableTypeFilter(c) => c.name
    case AspectJTypeFilter(p) => p
    case RegexPatternTypeFilter(p) => p
    case CustomTypeFilter(i) => i.ofClass.name
  }

  function ClassNotFound(expression: string): Result<TypeFilter, Exception>
  {
    Failure(TypeFilterClassNotFound(expression))
  }

  /** Builds the type filter an include-filter or exclude-filter element declares, dispatching on
      its `type` attribute. */
  function CreateTypeFilter(e: Element, ctx: Context): (r: Result<TypeFilter, Exception>)
    ensures r.Success? ==> FilterTypeName(r.value) == GetAttribute(e, FILTER_TYPE_ATTRIBUTE)
    ensures r.Success? && r.value.CustomTypeFilter? ==>
      IsAssignableTo(r.value.filter.ofClass, TYPE_FILTER) && CanInstantiateClass(r.value.filter.ofClass)
  {
    var filterType := GetAttribute(e, FILTER_TYPE_ATTRIBUTE);
    var expression := GetAttribute(e, FILTER_EXPRESSION_ATTRIBUTE);
    if filterType == "annotation" then
      if expression in ctx.classes then Success(AnnotationTypeFilter(ctx.classes[expression])) else ClassNotFound(expression)
    else if filterType == "assignable" then
      if expression in ctx.classes then Success(AssignableTypeFilter(ctx.classes[expression])) else ClassNotFound(expression)
    else if filterType == "aspectj" then
      if expression in ctx.rejectedTypePatterns then Failure(InvalidTypePattern(expression)) else Success(AspectJTypeFilter(expression))
    else if filterType == "regex" then
      if expression in ctx.rejectedRegexes then Failure(InvalidRegex(expression)) else Success(RegexPatternTypeFilter(expression))
    else if filterType == "custom" then
      if expression !in ctx.classes then ClassNotFound(expression)
      else
        var filterClass := ctx.classes[expression];
        if !IsAssignableTo(filterClass, TYPE_FILTER) then
          Failure(NotATypeFilter(expression))
        else if !CanInstantiateClass(filterClass) then
          Failure(FilterNotInstantiable(filterClass.name))
        else
          Success(CustomTypeFilter(Instance(filterClass)))
    else
      Failure(UnsupportedFilterType(filterType))
  }

  /** The errors of CreateTypeFilter: an unsupported `type`, a class that cannot be loaded, and a
      custom filter class that does not implement TypeFilter. */
  lemma TypeFilterErrors(e: Element, ctx: Context)
    ensures var filterType, expression := GetAttribute(e, FILTER_TYPE_ATTRIBUTE), GetAttribute(e, FILTER_EXPRESSION_ATTRIBUTE);
      && (filterType !in SUPPORTED_FILTER_TYPES ==>
            CreateTypeFilter(e, ctx) == Failure(UnsupportedFilterType(filterType)))
      && (filterType in {"annotation", "assignable", "custom"} && expression !in ctx.classes ==>
            CreateTypeFilter(e, ctx) == Failure(TypeFilterClassNotFound(expression)))
      && (filterType == "custom" && expression in ctx.classes && !IsAssignableTo(ctx.classes[expression], TYPE_FILTER) ==>
            CreateTypeFilter(e, ctx) == Failure(NotATypeFilter(expression)))
  {
  }

  /** A filter that a declaration can produce under `ctx`: its class loads under its own name, its
      pattern compiles, and a custom filter class implements TypeFilter and can be instantiated. */
  predicate Declarable(f: TypeFilter, ctx: Context)
  {
    match f
    case AnnotationTypeFilter(c) => c.name in ctx.classes && ctx.classes[c.name] == c
    case AssignableTypeFilter(c) => c.name in ctx.classes && ctx.classes[c.name] == c
    case AspectJTypeFilter(p) => p !in ctx.rejectedTypePatterns
    case RegexPatternTypeFilter(p) => p !in ctx.rejectedRegexes
    case CustomTypeFilter(i) =>
      i.ofClass.name in ctx.classes && ctx.classes[i.ofClass.name] == i.ofClass &&
      IsAssignableTo(i.ofClass, TYPE_FILTER) && CanInstantiateClass(i.ofClass)
  }

  /** The filter element that declares `f`. */
  function FilterElement(f: TypeFilter, localName: string): Element
  {
    Element(localName, localName,
      map[FILTER_TYPE_ATTRIBUTE := FilterTypeName(f), FILTER_EXPRESSION_ATTRIBUTE := FilterExpression(f)], [])
  }

  /** Declaring a filter and parsing the declaration gives the filter back. */
  lemma DeclaredFilterRoundTrip(f: TypeFilter, localName: string, ctx: Context)
    requires Declarable(f, ctx)
    ensures CreateTypeFilter(FilterElement(f, localName), ctx) == Success(f)
  {
    var e := FilterElement(f, localName);
    assert GetAttribute(e, FILTER_TYPE_ATTRIBUTE) == FilterTypeName(f);
    assert GetAttribute(e, FILTER_EXPRESSION_ATTRIBUTE) == FilterExpression(f);
  }

  /** Conversely, under a consistent class loader a parsed filter is declared by its element's
      `type` and `expression` attributes and can be declared again. */
  lemma ParsedFilterIsDeclarable(e: Element, ctx: Context)
    requires ConsistentLoader(ctx)
    requires CreateTypeFilter(e, ctx).Success?
    ensures var f := CreateTypeFilter(e, ctx).value;
      && FilterTypeName(f) == GetAttribute(e, FILTER_TYPE_ATTRIBUTE)
      && FilterExpression(f) == GetAttribute(e, FILTER_EXPRESSION_ATTRIBUTE)
      && Declarable(f, ctx)
  {
    var expression := GetAttribute(e, FILTER_EXPRESSION_ATTRIBUTE);
    if expression in ctx.classes {
      assert ctx.classes[expression].name == expression;
    }
  }

  // ---------------------------------------------------------------------------------------------
  // The include/exclude filter children

  /** The filters collected so far and the filter errors reported through the reader context. */
  datatype FilterLists = FilterLists(includes: seq<TypeFilter>, excludes: seq<TypeFilter>, reported: seq<Exception>)

  const NO_FILTERS := FilterLists([], [], [])

  function Concat(x: FilterLists, y: FilterLists): FilterLists
  {
    FilterLists(x.includes + y.includes, x.excludes + y.excludes, x.reported + y.reported)
  }

  /** What one child node contributes: a filter element adds its filter to its list, or reports
      the exception that creating the filter threw; every other node contributes nothing. */
  function ChildFilters(n: Node, ctx: Context): FilterLists
  {
    match n
    case OtherNode => NO_FILTERS
    case ElementNode(c) =>
      if c.localName == INCLUDE_FILTER_ELEMENT then
        match CreateTypeFilter(c, ctx)
        case Success(f) => FilterLists([f], [], [])
        case Failure(ex) => FilterLists([], [], [ex])
      else if c.localName == EXCLUDE_FILTER_ELEMENT then
        match CreateTypeFilter(c, ctx)
        case Success(f) => FilterLists([], [f], [])
        case Failure(ex) => FilterLists([], [], [ex])
      else NO_FILTERS
  }

  /** The filters and reports of the children, in child order. */
  function CollectFilters(nodes: seq<Node>, ctx: Context): FilterLists
  {
    if nodes == [] then NO_FILTERS
    else Concat(CollectFilters(nodes[..|nodes| - 1], ctx), ChildFilters(nodes[|nodes| - 1], ctx))
  }

  lemma ConcatAssociative(x: FilterLists, y: FilterLists, z: FilterLists)
    ensures Concat(Concat(x, y), z) == Concat(x, Concat(y, z))
  {
    assert (x.includes + y.includes) + z.includes == x.includes + (y.includes + z.includes);
    assert (x.excludes + y.excludes) + z.excludes == x.excludes + (y.excludes + z.excludes);
    assert (x.reported + y.reported) + z.reported == x.reported + (y.reported + z.reported);
  }

  /** The children are processed independently and in order: the filters of `a + b` are those of
      `a` followed by those of `b`, whatever failed in `a`. */
  lemma {:induction false} CollectFiltersConcat(a: seq<Node>, b: seq<Node>, ctx: Context)
    ensures CollectFilters(a + b, ctx) == Concat(CollectFilters(a, ctx), CollectFilters(b, ctx))
  {
    if b == [] {
      assert a + b == a;
      var x := CollectFilters(a, ctx);
      assert Concat(x, NO_FILTERS) == x;
    } else {
      var b' := b[..|b| - 1];
      var last := b[|b| - 1];
      assert (a + b)[..|a + b| - 1] == a + b';
      assert (a + b)[|a + b| - 1] == last;
      CollectFiltersConcat(a, b', ctx);
      ConcatAssociative(CollectFilters(a, ctx), CollectFilters(b', ctx), ChildFilters(last, ctx));
    }
  }

  lemma AddedInclude(x: FilterLists, f: TypeFilter)
    ensures x.(includes := x.includes + [f]) == Concat(x, FilterLists([f], [], []))
  {
    assert x.excludes + [] == x.excludes && x.reported + [] == x.reported;
  }

  lemma AddedExclude(x: FilterLists, f: TypeFilter)
    ensures x.(excludes := x.excludes + [f]) == Concat(x, FilterLists([], [f], []))
  {
    assert x.includes + [] == x.includes && x.reported + [] == x.reported;
  }

  lemma AddedReport(x: FilterLists, ex: Exception)
    ensures x.(reported := x.reported + [ex]) == Concat(x, FilterLists([], [], [ex]))
  {
    assert x.includes + [] == x.includes && x.excludes + [] == x.excludes;
  }

  lemma NothingAdded(x: FilterLists)
    ensures x == Concat(x, NO_FILTERS)
  {
    assert x.includes + [] == x.includes && x.excludes + [] == x.excludes && x.reported + [] == x.reported;
  }

  lemma CollectFiltersPrefix(nodes: seq<Node>, i: nat, ctx: Context)
    requires i < |nodes|
    ensures CollectFilters(nodes[..i + 1], ctx) == Concat(CollectFilters(nodes[..i], ctx), ChildFilters(nodes[i], ctx))
  {
    assert nodes[..i + 1][..i] == nodes[..i];
  }

  lemma CollectFiltersSingle(n: Node, ctx: Context)
    ensures CollectFilters([n], ctx) == ChildFilters(n, ctx)
  {
    assert [n][..0] == [];
    var x := ChildFilters(n, ctx);
    assert Concat(NO_FILTERS, x) == x;
  }

  /** A filter child whose filter cannot be created is reported, in its place, and the children
      after it are still processed. */
  lemma FailingFilterIsReported(before: seq<Node>, c: Element, after: seq<Node>, ctx: Context)
    requires c.localName == INCLUDE_FILTER_ELEMENT || c.localName == EXCLUDE_FILTER_ELEMENT
    requires CreateTypeFilter(c, ctx).Failure?
    ensures var x, y := CollectFilters(before, ctx), CollectFilters(after, ctx);
      CollectFilters(before + [ElementNode(c)] + after, ctx) ==
        FilterLists(x.includes + y.includes, x.excludes + y.excludes,
                    x.reported + [CreateTypeFilter(c, ctx).error] + y.reported)
  {
    ReportedChild(before, ElementNode(c), CreateTypeFilter(c, ctx).error, after, ctx);
  }

  lemma ReportedChild(before: seq<Node>, n: Node, ex: Exception, after: seq<Node>, ctx: Context)
    requires ChildFilters(n, ctx) == FilterLists([], [], [ex])
    ensures var x, y := CollectFilters(before, ctx), CollectFilters(after, ctx);
      CollectFilters(before + [n] + after, ctx) ==
        FilterLists(x.includes + y.includes, x.excludes + y.excludes, x.reported + [ex] + y.reported)
  {
    var x, y := CollectFilters(before, ctx), CollectFilters(after, ctx);
    var single := FilterLists([], [], [ex]);
    var xs := Concat(x, single);
    assert xs == FilterLists(x.includes, x.excludes, x.reported + [ex]) by {
      assert x.includes + [] == x.includes;
      assert x.excludes + [] == x.excludes;
    }
    assert CollectFilters(before + [n], ctx) == xs by {
      CollectFiltersSingle(n, ctx);
      CollectFiltersConcat(before, [n], ctx);
    }
    CollectFiltersConcat(before + [n], after, ctx);
  }

  /** Non-element children and elements other than the two filter elements are skipped. */
  lemma OtherChildIsSkipped(before: seq<Node>, n: Node, after: seq<Node>, ctx: Context)
    requires n.ElementNode? ==> n.element.localName != INCLUDE_FILTER_ELEMENT && n.element.localName != EXCLUDE_FILTER_ELEMENT
    ensures CollectFilters(before + [n] + after, ctx) ==
      Concat(CollectFilters(before, ctx), CollectFilters(after, ctx))
  {
    CollectFiltersConcat(before + [n], after, ctx);
    CollectFiltersConcat(before, [n], ctx);
    CollectFiltersSingle(n, ctx);
    var x := CollectFilters(before, ctx);
    assert Concat(x, NO_FILTERS) == x;
  }

  // ---------------------------------------------------------------------------------------------
  // Parsing the element

  /** The `scoped-proxy` values and the modes they select. */
  function ScopedProxyModeOf(value: string): (m: Option<ScopedProxyMode>)
    ensures m.Some? <==> value == "targetClass" || value == "interfaces" || value == "no"
  {
    if value == "targetClass" then Some(TargetClass)
    else if value == "interfaces" then Some(Interfaces)
    else if value == "no" then Some(No)
    else None
  }

  /** The `scoped-proxy` value that selects a mode. */
  function ScopedProxyModeName(m: ScopedProxyMode): string
  {
    match m
    case No => "no"
    case Interfaces => "interfaces"
    case TargetClass => "targetClass"
  }

  /** The three values and the three modes correspond one to one. */
  lemma ScopedProxyModeNames(m: ScopedProxyMode, value: string)
    ensures ScopedProxyModeOf(ScopedProxyModeName(m)) == Some(m)
    ensures ScopedProxyModeOf(value) == Some(m) <==> value == ScopedProxyModeName(m)
  {
  }

  /** The exception that parsing the attributes throws, if any: the attributes are examined in
      source order (name generator, scope resolver, scoped proxy), and the first failure wins. */
  function ConfigurationError(e: Element, ctx: Context): Option<Exception>
  {
    if HasAttribute(e, NAME_GENERATOR_ATTRIBUTE) &&
       InstantiateUserDefinedStrategy(GetAttribute(e, NAME_GENERATOR_ATTRIBUTE), BEAN_NAME_GENERATOR, ctx).Failure?
    then Some(InstantiateUserDefinedStrategy(GetAttribute(e, NAME_GENERATOR_ATTRIBUTE), BEAN_NAME_GENERATOR, ctx).error)
    else if HasAttribute(e, SCOPE_RESOLVER_ATTRIBUTE) && HasAttribute(e, SCOPED_PROXY_ATTRIBUTE)
    then Some(BothScopeAttributes)
    else if HasAttribute(e, SCOPE_RESOLVER_ATTRIBUTE) &&
       InstantiateUserDefinedStrategy(GetAttribute(e, SCOPE_RESOLVER_ATTRIBUTE), SCOPE_METADATA_RESOLVER, ctx).Failure?
    then Some(InstantiateUserDefinedStrategy(GetAttribute(e, SCOPE_RESOLVER_ATTRIBUTE), SCOPE_METADATA_RESOLVER, ctx).error)
    else if HasAttribute(e, SCOPED_PROXY_ATTRIBUTE) && ScopedProxyModeOf(GetAttribute(e, SCOPED_PROXY_ATTRIBUTE)).None?
    then Some(UnsupportedScopedProxy)
    else None
  }

  /** No configuration error occurs when each attribute that is present is valid and the scope
      attributes are not combined. */
  lemma NoConfigurationError(e: Element, ctx: Context)
    requires HasAttribute(e, NAME_GENERATOR_ATTRIBUTE) ==>
      InstantiateUserDefinedStrategy(GetAttribute(e, NAME_GENERATOR_ATTRIBUTE), BEAN_NAME_GENERATOR, ctx).Success?
    requires HasAttribute(e, SCOPE_RESOLVER_ATTRIBUTE) ==>
      !HasAttribute(e, SCOPED_PROXY_ATTRIBUTE) &&
      InstantiateUserDefinedStrategy(GetAttribute(e, SCOPE_RESOLVER_ATTRIBUTE), SCOPE_METADATA_RESOLVER, ctx).Success?
    requires HasAttribute(e, SCOPED_PROXY_ATTRIBUTE) ==> ScopedProxyModeOf(GetAttribute(e, SCOPED_PROXY_ATTRIBUTE)).Some?
    ensures ConfigurationError(e, ctx) == None
  {
  }

  /** Naming both a scope resolver and a scoped-proxy mode, or a scoped-proxy value other than the
      three supported ones, is an IllegalArgumentException; when nothing before it fails, with
      the message that names the problem. */
  lemma ScopeAttributeErrors(e: Element, ctx: Context)
    ensures HasAttribute(e, SCOPE_RESOLVER_ATTRIBUTE) && HasAttribute(e, SCOPED_PROXY_ATTRIBUTE) ==>
      ConfigurationError(e, ctx).Some? && ClassOf(ConfigurationError(e, ctx).value) == IllegalArgumentException
    ensures HasAttribute(e, SCOPED_PROXY_ATTRIBUTE) && ScopedProxyModeOf(GetAttribute(e, SCOPED_PROXY_ATTRIBUTE)).None? ==>
      ConfigurationError(e, ctx).Some? && ClassOf(ConfigurationError(e, ctx).value) == IllegalArgumentException
    ensures (!HasAttribute(e, NAME_GENERATOR_ATTRIBUTE) ||
             InstantiateUserDefinedStrategy(GetAttribute(e, NAME_GENERATOR_ATTRIBUTE), BEAN_NAME_GENERATOR, ctx).Success?) &&
            HasAttribute(e, SCOPE_RESOLVER_ATTRIBUTE) && HasAttribute(e, SCOPED_PROXY_ATTRIBUTE) ==>
      ConfigurationError(e, ctx) == Some(BothScopeAttributes)
  {
  }

  /** A filter error's message ends with the expression or type it is about, and a
      non-implementation's message ends with the strategy type. */
  lemma MessageEndsWith(ex: Exception, subject: string)
    requires
      || (ex.NotAStrategyImplementation? && subject == ex.strategyType)
      || ((ex.TypeFilterClassNotFound? || ex.NotATypeFilter?) && subject == ex.expression)
      || (ex.UnsupportedFilterType? && subject == ex.filterType)
    ensures ProperSuffix(subject, Message(ex))
  {
    if ex.NotAStrategyImplementation? {
      EndsIn("Provided class name must be an implementation of interface ", subject);
    } else if ex.TypeFilterClassNotFound? {
      EndsIn("Type filter class not found: ", subject);
    } else if ex.NotATypeFilter? {
      EndsIn("Class is not assignable to [" + TYPE_FILTER + "]: ", subject);
    } else {
      EndsIn("Unsupported filter type: ", subject);
    }
  }

  /** Every configuration error is an IllegalArgumentException whose message the parser writes. */
  lemma ConfigurationErrorsWrittenHere(e: Element, ctx: Context)
    ensures ConfigurationError(e, ctx).Some? ==>
      WrittenHere(ConfigurationError(e, ctx).value) && ClassOf(ConfigurationError(e, ctx).value) == IllegalArgumentException
  {
  }

  /** The metadata and the filter errors reported while parsing. */
  datatype ParsedMetadata = ParsedMetadata(metadata: ComponentScanMetadata, reported: seq<Exception>)

  /** The plain settings the attributes of `e` select: each optional attribute changes its
      setting only when it is present. */
  predicate SettingsParsedFrom(e: Element, m: ComponentScanMetadata)
  {
    && m.basePackages == Tokenize(GetAttribute(e, BASE_PACKAGE_ATTRIBUTE), CONFIG_LOCATION_DELIMITERS)
    && m.includeAnnotationConfig ==
         (if HasAttribute(e, ANNOTATION_CONFIG_ATTRIBUTE) then BooleanValueOf(GetAttribute(e, ANNOTATION_CONFIG_ATTRIBUTE))
          else NEW_METADATA.includeAnnotationConfig)
    && m.useDefaultFilters ==
         (if HasAttribute(e, USE_DEFAULT_FILTERS_ATTRIBUTE) then BooleanValueOf(GetAttribute(e, USE_DEFAULT_FILTERS_ATTRIBUTE))
          else NEW_METADATA.useDefaultFilters)
    && m.resourcePattern ==
         (if HasAttribute(e, RESOURCE_PATTERN_ATTRIBUTE) then GetAttribute(e, RESOURCE_PATTERN_ATTRIBUTE)
          else NEW_METADATA.resourcePattern)
  }

  /** The strategies and the scoped-proxy mode the attributes of `e` select: each is set exactly
      when its attribute is present. */
  predicate StrategiesParsedFrom(e: Element, ctx: Context, m: ComponentScanMetadata)
  {
    && (m.beanNameGenerator.Some? <==> HasAttribute(e, NAME_GENERATOR_ATTRIBUTE))
    && (m.beanNameGenerator.Some? ==>
         InstantiateUserDefinedStrategy(GetAttribute(e, NAME_GENERATOR_ATTRIBUTE), BEAN_NAME_GENERATOR, ctx)
           == Success(m.beanNameGenerator.value))
    && (m.scopeMetadataResolver.Some? <==> HasAttribute(e, SCOPE_RESOLVER_ATTRIBUTE))
    && (m.scopeMetadataResolver.Some? ==>
         InstantiateUserDefinedStrategy(GetAttribute(e, SCOPE_RESOLVER_ATTRIBUTE), SCOPE_METADATA_RESOLVER, ctx)
           == Success(m.scopeMetadataResolver.value))
    && m.scopedProxyMode ==
         (if HasAttribute(e, SCOPED_PROXY_ATTRIBUTE) then ScopedProxyModeOf(GetAttribute(e, SCOPED_PROXY_ATTRIBUTE))
          else NEW_METADATA.scopedProxyMode)
  }

  /** The settings the attributes of `e` select; the filter lists are not among them. */
  predicate AttributesParsedFrom(e: Element, ctx: Context, m: ComponentScanMetadata)
  {
    SettingsParsedFrom(e, m) && StrategiesParsedFrom(e, ctx, m)
  }

  /** What a successful parse of `e` yields: the settings its attributes select, and the filters
      of its children, in order, with the errors reported for the children that failed. */
  predicate ParsedFrom(e: Element, ctx: Context, p: ParsedMetadata)
  {
    var lists := CollectFilters(e.childNodes, ctx);
    && AttributesParsedFrom(e, ctx, p.metadata.(includeFilters := [], excludeFilters := []))
    && p.metadata.includeFilters == lists.includes
    && p.metadata.excludeFilters == lists.excludes
    && p.reported == lists.reported
  }

  /** Reads the attributes and the filter children of a `<component-scan>` element into metadata.
      A configuration error is thrown; an error in one filter child is reported and the remaining
      children are still processed. */
  method ParseComponentScanMetadata(element: Element, ctx: Context) returns (r: Result<ParsedMetadata, Exception>)
    ensures r.Failure? ==> ConfigurationError(element, ctx) == Some(r.error)
    ensures r.Success? ==> ConfigurationError(element, ctx) == None && ParsedFrom(element, ctx, r.value)
  {
    var attributes := ParseAttributes(element, ctx);
    if attributes.Failure? {
      return Failure(attributes.error);
    }
    var metadata := attributes.value;
    var lists := ParseFilterChildren(element.childNodes, ctx);
    metadata := metadata.(includeFilters := lists.includes, excludeFilters := lists.excludes);
    return Success(ParsedMetadata(metadata, lists.reported));
  }

  /** The attribute part of parseComponentScanMetadata: the plain settings first, then the
      strategies, each setter call on the new metadata object an update of the metadata value. */
  method ParseAttributes(element: Element, ctx: Context) returns (r: Result<ComponentScanMetadata, Exception>)
    ensures r.Failure? ==> ConfigurationError(element, ctx) == Some(r.error)
    ensures r.Success? ==> ConfigurationError(element, ctx) == None && AttributesParsedFrom(element, ctx, r.value)
    ensures r.Success? ==> r.value.includeFilters == [] && r.value.excludeFilters == []
  {
    var metadata := ParseSettings(element);
    r := ParseStrategies(element, ctx, metadata);
  }

  /** The base packages, the two flags and the resource pattern; none of them can fail. */
  method ParseSettings(element: Element) returns (metadata: ComponentScanMetadata)
    ensures SettingsParsedFrom(element, metadata)
    ensures metadata.beanNameGenerator.None? && metadata.scopeMetadataResolver.None? && metadata.scopedProxyMode.None?
    ensures metadata.includeFilters == [] && metadata.excludeFilters == []
  {
    metadata := NEW_METADATA.(basePackages := Tokenize(GetAttribute(element, BASE_PACKAGE_ATTRIBUTE), CONFIG_LOCATION_DELIMITERS));
    if HasAttribute(element, ANNOTATION_CONFIG_ATTRIBUTE) {
      metadata := metadata.(includeAnnotationConfig := BooleanValueOf(GetAttribute(element, ANNOTATION_CONFIG_ATTRIBUTE)));
    }
    if HasAttribute(element, USE_DEFAULT_FILTERS_ATTRIBUTE) {
      metadata := metadata.(useDefaultFilters := BooleanValueOf(GetAttribute(element, USE_DEFAULT_FILTERS_ATTRIBUTE)));
    }
    if HasAttribute(element, RESOURCE_PATTERN_ATTRIBUTE) {
      metadata := metadata.(resourcePattern := GetAttribute(element, RESOURCE_PATTERN_ATTRIBUTE));
    }
  }

  /** The name generator, the scope resolver and the scoped-proxy mode, in this order; the first
      configuration error ends parsing. The settings read before are kept. */
  method ParseStrategies(element: Element, ctx: Context, metadata: ComponentScanMetadata)
    returns (r: Result<ComponentScanMetadata, Exception>)
    requires metadata.beanNameGenerator.None? && metadata.scopeMetadataResolver.None? && metadata.scopedProxyMode.None?
    ensures r.Failure? ==> ConfigurationError(element, ctx) == Some(r.error)
    ensures r.Success? ==> ConfigurationError(element, ctx) == None && StrategiesParsedFrom(element, ctx, r.value)
    ensures r.Success? ==> r.value.(beanNameGenerator := None, scopeMetadataResolver := None, scopedProxyMode := None) == metadata
  {
    var m := metadata;
    if HasAttribute(element, NAME_GENERATOR_ATTRIBUTE) {
      var generator := InstantiateUserDefinedStrategy(GetAttribute(element, NAME_GENERATOR_ATTRIBUTE), BEAN_NAME_GENERATOR, ctx);
      if generator.Failure? {
        return Failure(generator.error);
      }
      m := m.(beanNameGenerator := Some(generator.value));
    }

    if HasAttribute(element, SCOPE_RESOLVER_ATTRIBUTE) {
      if HasAttribute(element, SCOPED_PROXY_ATTRIBUTE) {
        return Failure(BothScopeAttributes);
      }
      var resolver := InstantiateUserDefinedStrategy(GetAttribute(element, SCOPE_RESOLVER_ATTRIBUTE), SCOPE_METADATA_RESOLVER, ctx);
      if resolver.Failure? {
        return Failure(resolver.error);
      }
      m := m.(scopeMetadataResolver := Some(resolver.value));
    }

    if HasAttribute(element, SCOPED_PROXY_ATTRIBUTE) {
      var mode := GetAttribute(element, SCOPED_PROXY_ATTRIBUTE);
      if mode == "targetClass" {
        m := m.(scopedProxyMode := Some(TargetClass));
      } else if mode == "interfaces" {
        m := m.(scopedProxyMode := Some(Interfaces));
      } else if mode == "no" {
        m := m.(scopedProxyMode := Some(No));
      } else {
        return Failure(UnsupportedScopedProxy);
      }
    }
    NoConfigurationError(element, ctx);
    return Success(m);
  }

  /** The loop over the child nodes at the end of parseComponentScanMetadata: each include-filter
      or exclude-filter child adds its filter to its list, or has the exception creating the filter
      threw reported; the loop goes on with the next child either way. */
  method ParseFilterChildren(nodeList: seq<Node>, ctx: Context) returns (lists: FilterLists)
    ensures lists == CollectFilters(nodeList, ctx)
  {
    lists := NO_FILTERS;
    var i := 0;
    while i < |nodeList|
      invariant 0 <= i <= |nodeList|
      invariant lists == CollectFilters(nodeList[..i], ctx)
    {
      var node := nodeList[i];
      ghost var collected := lists;
      if node.ElementNode? {
        var localName := node.element.localName;
        if localName == INCLUDE_FILTER_ELEMENT {
          var typeFilter := CreateTypeFilter(node.element, ctx);
          if typeFilter.Success? {
            lists := lists.(includes := lists.includes + [typeFilter.value]);
            AddedInclude(collected, typeFilter.value);
          } else {
            lists := lists.(reported := lists.reported + [typeFilter.error]);
            AddedReport(collected, typeFilter.error);
          }
        } else if localName == EXCLUDE_FILTER_ELEMENT {
          var typeFilter := CreateTypeFilter(node.element, ctx);
          if typeFilter.Success? {
            lists := lists.(excludes := lists.excludes + [typeFilter.value]);
            AddedExclude(collected, typeFilter.value);
          } else {
            lists := lists.(reported := lists.reported + [typeFilter.error]);
            AddedReport(collected, typeFilter.error);
          }
        } else {
          NothingAdded(collected);
        }
      } else {
        NothingAdded(collected);
      }
      CollectFiltersPrefix(nodeList, i, ctx);
      i := i + 1;
    }
    assert nodeList[..i] == nodeList;
  }

  // ---------------------------------------------------------------------------------------------
  // Registering the scanned components

  /** A bean definition together with its bean name. */
  datatype BeanDefinitionHolder = BeanDefinitionHolder(beanName: string, beanClassName: string)

  datatype BeanComponentDefinition = BeanComponentDefinition(holder: BeanDefinitionHolder)

  datatype CompositeComponentDefinition = CompositeComponentDefinition(name: string, nestedComponents: seq<BeanComponentDefinition>)

  /** The effects of parsing on the surrounding registry and reader context, in the order they happen. */
  datatype SideEffect =
    /** readerContext.error */
    | ErrorReported(error: Exception)
    /** The component-scan reader scanned with this metadata and registered these beans. */
    | Scanned(metadata: ComponentScanMetadata, beans: seq<BeanDefinitionHolder>)
    /** The annotation-config post-processors were registered. */
    | ProcessorsRegistered(processors: seq<BeanDefinitionHolder>)
    /** readerContext.fireComponentRegistered */
    | ComponentRegistered(composite: CompositeComponentDefinition)

  /** Whether the annotation-config processors are registered: unless the attribute says otherwise. */
  predicate AnnotationConfigEnabled(e: Element)
  {
    !HasAttribute(e, ANNOTATION_CONFIG_ATTRIBUTE) || BooleanValueOf(GetAttribute(e, ANNOTATION_CONFIG_ATTRIBUTE))
  }

  /** registerComponents reads `annotation-config` again instead of asking the metadata; both
      readings agree, since the metadata's setting defaults to true as well. */
  lemma AnnotationConfigAgrees(e: Element, ctx: Context, p: ParsedMetadata)
    requires ParsedFrom(e, ctx, p)
    ensures p.metadata.includeAnnotationConfig == AnnotationConfigEnabled(e)
  {
  }

  /** One bean component per holder, in order. */
  function Components(holders: seq<BeanDefinitionHolder>): (r: seq<BeanComponentDefinition>)
    ensures |r| == |holders| && forall i :: 0 <= i < |r| ==> r[i] == BeanComponentDefinition(holders[i])
  {
    if holders == [] then [] else [BeanComponentDefinition(holders[0])] + Components(holders[1..])
  }

  /** The composite that registering the scanned beans builds: named after the tag, nesting the
      beans and then, when annotation config is enabled, the processor definitions. */
  function Composite(element: Element, beans: seq<BeanDefinitionHolder>, processors: seq<BeanDefinitionHolder>)
    : CompositeComponentDefinition
  {
    CompositeComponentDefinition(element.tagName,
      Components(beans) + (if AnnotationConfigEnabled(element) then Components(processors) else []))
  }

  /** Nests one component per scanned bean, in order, then (if annotation config is enabled) one per
      processor definition that registering the annotation-config processors returned; then fires
      one component-registered event. `processorDefinitions` stands for what that registration returns. */
  method RegisterComponents(element: Element, beanDefinitions: seq<BeanDefinitionHolder>, processorDefinitions: seq<BeanDefinitionHolder>)
    returns (compositeDef: CompositeComponentDefinition, effects: seq<SideEffect>)
    ensures compositeDef.name == element.tagName
    ensures var n := |beanDefinitions|;
      && |compositeDef.nestedComponents| == n + (if AnnotationConfigEnabled(element) then |processorDefinitions| else 0)
      && (forall i :: 0 <= i < n ==> compositeDef.nestedComponents[i] == BeanComponentDefinition(beanDefinitions[i]))
      && (forall i :: n <= i < |compositeDef.nestedComponents| ==>
            compositeDef.nestedComponents[i] == BeanComponentDefinition(processorDefinitions[i - n]))
    ensures compositeDef == Composite(element, beanDefinitions, processorDefinitions)
    ensures effects ==
      (if AnnotationConfigEnabled(element) then [ProcessorsRegistered(processorDefinitions)] else []) + [ComponentRegistered(compositeDef)]
  {
    var nested: seq<BeanComponentDefinition> := [];
    var i := 0;
    while i < |beanDefinitions|
      invariant 0 <= i <= |beanDefinitions|
      invariant |nested| == i
      invariant forall k :: 0 <= k < i ==> nested[k] == BeanComponentDefinition(beanDefinitions[k])
    {
      nested := nested + [BeanComponentDefinition(beanDefinitions[i])];
      i := i + 1;
    }

    var annotationConfig := true;
    if HasAttribute(element, ANNOTATION_CONFIG_ATTRIBUTE) {
      annotationConfig := BooleanValueOf(GetAttribute(element, ANNOTATION_CONFIG_ATTRIBUTE));
    }
    effects := [];
    if annotationConfig {
      effects := [ProcessorsRegistered(processorDefinitions)];
      var j := 0;
      while j < |processorDefinitions|
        invariant 0 <= j <= |processorDefinitions|
        invariant |nested| == |beanDefinitions| + j
        invariant forall k :: 0 <= k < |beanDefinitions| ==> nested[k] == BeanComponentDefinition(beanDefinitions[k])
        invariant forall k :: |beanDefinitions| <= k < |nested| ==>
          nested[k] == BeanComponentDefinition(processorDefinitions[k - |beanDefinitions|])
      {
        nested := nested + [BeanComponentDefinition(processorDefinitions[j])];
        j := j + 1;
      }
    }
    compositeDef := CompositeComponentDefinition(element.tagName, nested);
    assert nested == Composite(element, beanDefinitions, processorDefinitions).nestedComponents;
    effects := effects + [ComponentRegistered(compositeDef)];
  }

  /** The effects of reporting these errors, in order. */
  function Reports(errors: seq<Exception>): (r: seq<SideEffect>)
    ensures |r| == |errors| && forall i :: 0 <= i < |r| ==> r[i] == ErrorReported(errors[i])
  {
    if errors == [] then [] else [ErrorReported(errors[0])] + Reports(errors[1..])
  }

  /** Scans with the parsed metadata after reporting the filter errors, then registers the
      components. */
  method ScanAndRegister(element: Element, parsed: ParsedMetadata, scan: ComponentScanMetadata -> seq<BeanDefinitionHolder>,
                         processorDefinitions: seq<BeanDefinitionHolder>)
    returns (effects: seq<SideEffect>)
    ensures effects == Reports(parsed.reported) + [Scanned(parsed.metadata, scan(parsed.metadata))] +
      (if AnnotationConfigEnabled(element) then [ProcessorsRegistered(processorDefinitions)] else []) +
      [ComponentRegistered(Composite(element, scan(parsed.metadata), processorDefinitions))]
  {
    var metadata := parsed.metadata;
    var scannedBeans := scan(metadata);
    var compositeDef, registration := RegisterComponents(element, scannedBeans, processorDefinitions);
    effects := Reports(parsed.reported) + [Scanned(metadata, scannedBeans)] + registration;
  }

  /** The whole `<component-scan>` element: parse the metadata, scan with it, register the
      components. `scan` stands for the component-scan reader (the classpath scan it performs is
      not part of this model) and `processorDefinitions` for what registering the annotation-config
      processors returns. A configuration error is thrown before anything is reported, scanned or
      registered. */
  method Parse(element: Element, ctx: Context, scan: ComponentScanMetadata -> seq<BeanDefinitionHolder>,
               processorDefinitions: seq<BeanDefinitionHolder>)
    returns (thrown: Option<Exception>, effects: seq<SideEffect>)
    ensures thrown.Some? <==> ConfigurationError(element, ctx).Some?
    ensures thrown.Some? ==> thrown == ConfigurationError(element, ctx) && effects == []
    ensures thrown.None? ==> exists p: ParsedMetadata ::
      && ParsedFrom(element, ctx, p)
      && effects == Reports(p.reported) + [Scanned(p.metadata, scan(p.metadata))] +
           (if AnnotationConfigEnabled(element) then [ProcessorsRegistered(processorDefinitions)] else []) +
           [ComponentRegistered(Composite(element, scan(p.metadata), processorDefinitions))]
  {
    var parsed := ParseComponentScanMetadata(element, ctx);
    if parsed.Failure? {
      return Some(parsed.error), [];
    }
    thrown := None;
    effects := ScanAndRegister(element, parsed.value, scan, processorDefinitions);
  }
}
