# Component-scan parsing and the model-and-view container

This project models two pieces of the Spring Framework, version 3.1, in Dafny and proves
properties about them.

- **The `<context:component-scan/>` parser** (`ComponentScanBeanDefinitionParser`), in
  `component_scan.dfy` with its string helpers in `string_utils.dfy`. The XML element is a
  record: a tag name, a local name, an attribute map and an ordered list of child nodes. Class
  loading is a lookup in a table of class descriptors. Each descriptor says which types the class
  is assignable to and what kind of zero-argument constructor it has.
  - The parser reads the attributes into `ComponentScanMetadata`. It instantiates the
    user-named strategies and maps `scoped-proxy` to a mode.
  - It turns every `include-filter` and `exclude-filter` child into a type filter, in child
    order. It reports a child whose filter cannot be built and carries on with the next one.
  - It hands the metadata to the scanner and registers the scanned beans as one composite
    component. Unless `annotation-config` is false, the annotation-config processors are
    registered and nested in that component as well.
  - Configuration errors are thrown. Filter errors are reported through the reader context,
    which is modelled as a list of reports.
- **`ModelAndViewContainer`**, in `model_and_view.dfy`, over the model maps of `model_map.dfy`.
  - It is a class with these fields: the view, the `resolveView` flag, the default model, an
    optional redirect model and the one-way `useRedirectModel` flag.
  - A model map is an insertion-ordered map from attribute names to values, as a
    `LinkedHashMap` is. Its ordered keys and its values are kept as a key sequence and a Dafny map.
  - Attribute writes go to the active model only.
  - Merging never replaces an existing attribute.

`wrappers.dfy` holds the `Option` and `Result` types. `Result` models an operation that either
returns a value or throws. Exceptions are a datatype with one constructor per cause.
`ComponentScan.ClassOf` gives the Java exception class of each cause, and `ComponentScan.Message`
gives the message text the parser writes.

## Model

| member | source | states |
|---|---|---|
| StringUtils.Tokenize | org.springframework.context/src/main/java/org/springframework/context/annotation/ComponentScanBeanDefinitionParser.java:108-109 | every base package is non-empty, free of the delimiters `,; \t\n`, and trimmed as String.trim trims (no character up to U+0020 at either end) |
| StringUtils.TokenizeJoin | org.springframework.context/src/main/java/org/springframework/context/annotation/ComponentScanBeanDefinitionParser.java:108-109 | a package list written with any delimiter as separator tokenizes back to the same packages, in order |
| StringUtils.TokenizeConcat | org.springframework.context/src/main/java/org/springframework/context/annotation/ComponentScanBeanDefinitionParser.java:108-109 | a delimiter splits the value: the packages of `a + d + b` are those of `a` followed by those of `b` |
| StringUtils.TokenizeUndelimited | org.springframework.context/src/main/java/org/springframework/context/annotation/ComponentScanBeanDefinitionParser.java:108-109 | a value without delimiters gives the one package it holds, trimmed, or none when it is blank |
| StringUtils.TokenizeSkipsDelimiters | org.springframework.context/src/main/java/org/springframework/context/annotation/ComponentScanBeanDefinitionParser.java:108-109 | leading delimiters add no package and take none away |
| StringUtils.TokenizeSeparated | org.springframework.context/src/main/java/org/springframework/context/annotation/ComponentScanBeanDefinitionParser.java:108-109 | two packages separated by any run of delimiters, such as ", ", give exactly those two packages |
| StringUtils.TokenizeBlank | org.springframework.context/src/main/java/org/springframework/context/annotation/ComponentScanBeanDefinitionParser.java:108-109 | an absent, empty or delimiter-only `base-package` gives no packages |
| StringUtils.BooleanValueOf | org.springframework.context/src/main/java/org/springframework/context/annotation/ComponentScanBeanDefinitionParser.java:111-117 | a boolean attribute is true exactly when it spells "true" in any letter case |
| ComponentScan.InstantiateUserDefinedStrategy | org.springframework.context/src/main/java/org/springframework/context/annotation/ComponentScanBeanDefinitionParser.java:245-264 | succeeds iff the class loads, has a public zero-argument constructor and implements the strategy type; the instance is of that class; every failure is an IllegalArgumentException |
| ComponentScan.StrategyErrors | org.springframework.context/src/main/java/org/springframework/context/annotation/ComponentScanBeanDefinitionParser.java:248-262 | which of the three causes is thrown: class not found, not instantiable, or not an implementation of the strategy type |
| ComponentScan.CreateTypeFilter | org.springframework.context/src/main/java/org/springframework/context/annotation/ComponentScanBeanDefinitionParser.java:211-243 | a created filter is of the kind its `type` attribute names; a custom filter's class implements TypeFilter and can be instantiated |
| ComponentScan.TypeFilterErrors | org.springframework.context/src/main/java/org/springframework/context/annotation/ComponentScanBeanDefinitionParser.java:216-242 | a type outside the five supported ones is "Unsupported filter type"; a class that cannot be loaded is "Type filter class not found"; a custom class that is not a TypeFilter is rejected |
| ComponentScan.DeclaredFilterRoundTrip | org.springframework.context/src/main/java/org/springframework/context/annotation/ComponentScanBeanDefinitionParser.java:211-232 | the element that declares a filter (its kind as `type`, its class or pattern as `expression`) parses back to that filter |
| ComponentScan.ParsedFilterIsDeclarable | org.springframework.context/src/main/java/org/springframework/context/annotation/ComponentScanBeanDefinitionParser.java:211-232 | conversely, under a class loader that loads each class under its own name, a parsed filter is declared by the element's `type` and `expression` |
| ComponentScan.CollectFiltersConcat | org.springframework.context/src/main/java/org/springframework/context/annotation/ComponentScanBeanDefinitionParser.java:160-179 | the children are processed independently and in order: the filters and reports of `a + b` are those of `a` followed by those of `b` |
| ComponentScan.FailingFilterIsReported | org.springframework.context/src/main/java/org/springframework/context/annotation/ComponentScanBeanDefinitionParser.java:163-177 | a filter child whose filter cannot be created is reported in its place, adds no filter, and the children after it are still processed |
| ComponentScan.OtherChildIsSkipped | org.springframework.context/src/main/java/org/springframework/context/annotation/ComponentScanBeanDefinitionParser.java:162-172 | non-element nodes and elements other than the two filter elements contribute nothing |
| ComponentScan.ScopedProxyModeOf | org.springframework.context/src/main/java/org/springframework/context/annotation/ComponentScanBeanDefinitionParser.java:142-156 | a mode is chosen exactly for "targetClass", "interfaces" and "no" |
| ComponentScan.ScopedProxyModeNames | org.springframework.context/src/main/java/org/springframework/context/annotation/ComponentScanBeanDefinitionParser.java:144-152 | the three values and the three modes correspond one to one, in both directions |
| ComponentScan.ScopeAttributeErrors | org.springframework.context/src/main/java/org/springframework/context/annotation/ComponentScanBeanDefinitionParser.java:131-155 | both `scope-resolver` and `scoped-proxy`, or an unsupported `scoped-proxy` value, is an IllegalArgumentException; when the name generator is absent or instantiates, combining the two attributes is the both-attributes error |
| ComponentScan.ConfigurationErrorsWrittenHere | org.springframework.context/src/main/java/org/springframework/context/annotation/ComponentScanBeanDefinitionParser.java:123-156 | every configuration error is an IllegalArgumentException raised by the parser itself, with a message it writes |
| ComponentScan.MessageEndsWith | org.springframework.context/src/main/java/org/springframework/context/annotation/ComponentScanBeanDefinitionParser.java:232-261 | the message of a filter error ends with the filter's expression or type, and that of a non-implementation ends with the strategy type |
| ComponentScan.NoConfigurationError | org.springframework.context/src/main/java/org/springframework/context/annotation/ComponentScanBeanDefinitionParser.java:123-156 | nothing is thrown when every present strategy instantiates, the scope attributes are not combined and the scoped-proxy value is supported |
| ComponentScan.ParseComponentScanMetadata | org.springframework.context/src/main/java/org/springframework/context/annotation/ComponentScanBeanDefinitionParser.java:103-182 | throws exactly the first configuration error in source order; otherwise the metadata holds the attribute settings and the filters of the children in order, with the failed children reported |
| ComponentScan.ParseAttributes | org.springframework.context/src/main/java/org/springframework/context/annotation/ComponentScanBeanDefinitionParser.java:106-156 | throws exactly the first configuration error; otherwise every setting is the one its attribute selects and the filter lists are still empty |
| ComponentScan.ParseSettings | org.springframework.context/src/main/java/org/springframework/context/annotation/ComponentScanBeanDefinitionParser.java:106-120 | each of `annotation-config`, `use-default-filters` and `resource-pattern` changes its setting only when present, the defaults stay otherwise, and the base packages are the tokens of `base-package` |
| ComponentScan.ParseStrategies | org.springframework.context/src/main/java/org/springframework/context/annotation/ComponentScanBeanDefinitionParser.java:122-156 | throws exactly the first configuration error in source order; otherwise each strategy is set exactly when its attribute is present, to the instance its class name gives, and the scoped-proxy mode is the one its value names; the settings read before are kept |
| ComponentScan.ParseFilterChildren | org.springframework.context/src/main/java/org/springframework/context/annotation/ComponentScanBeanDefinitionParser.java:158-179 | the loop over the child nodes collects exactly the filters and reports of the children, in child order |
| ComponentScan.AnnotationConfigAgrees | org.springframework.context/src/main/java/org/springframework/context/annotation/ComponentScanBeanDefinitionParser.java:111-113 | the metadata's annotation-config setting agrees with the separate reading of the attribute when components are registered |
| ComponentScan.RegisterComponents | org.springframework.context/src/main/java/org/springframework/context/annotation/ComponentScanBeanDefinitionParser.java:184-208 | the composite is named after the tag and nests one component per scanned bean in order, then the processor definitions only when annotation config is enabled (it is `Composite` of the tag, the beans and the processors); exactly one event is fired, last |
| ComponentScan.Parse | org.springframework.context/src/main/java/org/springframework/context/annotation/ComponentScanBeanDefinitionParser.java:86-101 | a configuration error is thrown before anything is reported, scanned or registered; otherwise the filter errors are reported, the scanner runs once with the parsed metadata, and the composite of the scanned beans and processors is registered |
| ComponentScan.ScanAndRegister | org.springframework.context/src/main/java/org/springframework/context/annotation/ComponentScanBeanDefinitionParser.java:96-97 | the filter errors are reported first, then the scanner runs once with the parsed metadata, then the composite nesting exactly the scanned beans and, when enabled, the processors is registered |
| ModelMaps.PutAllValues | org.springframework.web/src/main/java/org/springframework/web/method/support/ModelAndViewContainer.java:180-187 | adding all attributes is map union in which the added values win |
| ModelMaps.MergeValues | org.springframework.web/src/main/java/org/springframework/web/method/support/ModelAndViewContainer.java:189-197 | merging is map union in which existing values win: no existing attribute is replaced |
| ModelMaps.MergeEachKeyOrder | org.springframework.web/src/main/java/org/springframework/web/method/support/ModelAndViewContainer.java:180-197 | merging and adding all give the same attribute order: new names are appended in the order of the given map |
| ModelMaps.MergeIdempotent | org.springframework.web/src/main/java/org/springframework/web/method/support/ModelAndViewContainer.java:189-197 | merging the same attributes twice is merging them once |
| ModelMaps.ModelMap.AddAllAttributes | org.springframework.web/src/main/java/org/springframework/web/method/support/ModelAndViewContainer.java:184-187 | putting the entries one by one gives the putAll of the map; a null map changes nothing |
| ModelMaps.ModelMap.MergeAttributes | org.springframework.web/src/main/java/org/springframework/web/method/support/ModelAndViewContainer.java:194-197 | putting each entry whose name is absent gives the merge of the map; a null map changes nothing |
| ModelAndView.ModelAndViewContainer.constructor | org.springframework.web/src/main/java/org/springframework/web/method/support/ModelAndViewContainer.java:45-59 | no view, view resolution required, a new empty default model that is active, no redirect model, redirect model not in use |
| ModelAndView.ModelAndViewContainer.SetViewName | org.springframework.web/src/main/java/org/springframework/web/method/support/ModelAndViewContainer.java:61-67 | the view becomes the name, whatever it was; it is then a view reference; no other field changes |
| ModelAndView.ModelAndViewContainer.GetViewName | org.springframework.web/src/main/java/org/springframework/web/method/support/ModelAndViewContainer.java:69-75 | a name is returned exactly when the view is a view reference, and it is the stored name |
| ModelAndView.ModelAndViewContainer.GetView | org.springframework.web/src/main/java/org/springframework/web/method/support/ModelAndViewContainer.java:85-91 | the stored view is returned as it is; it is a name exactly when it is a view reference, and getViewName then gives that name |
| ModelAndView.ModelAndViewContainer.IsViewReference | org.springframework.web/src/main/java/org/springframework/web/method/support/ModelAndViewContainer.java:93-99 | true exactly when the view is a name (a String) |
| ModelAndView.ModelAndViewContainer.SetView | org.springframework.web/src/main/java/org/springframework/web/method/support/ModelAndViewContainer.java:77-99 | getView returns the view set; it is a view reference exactly when it is a String; no other field changes |
| ModelAndView.ModelAndViewContainer.SetResolveView | org.springframework.web/src/main/java/org/springframework/web/method/support/ModelAndViewContainer.java:101-121 | isResolveView returns the last value set; no other field changes |
| ModelAndView.ModelAndViewContainer.IsResolveView | org.springframework.web/src/main/java/org/springframework/web/method/support/ModelAndViewContainer.java:117-121 | the resolveView flag, as the constructor and setResolveView leave it |
| ModelAndView.ModelAndViewContainer.GetModel | org.springframework.web/src/main/java/org/springframework/web/method/support/ModelAndViewContainer.java:123-135 | the active model is one of the two; it is the redirect model iff one is set and its use is enabled |
| ModelAndView.ModelAndViewContainer.SetRedirectModel | org.springframework.web/src/main/java/org/springframework/web/method/support/ModelAndViewContainer.java:137-152 | getRedirectModel returns the model set; it becomes active only if its use is already enabled |
| ModelAndView.ModelAndViewContainer.GetRedirectModel | org.springframework.web/src/main/java/org/springframework/web/method/support/ModelAndViewContainer.java:146-152 | the redirect model set, whether active or not; once its use is enabled it is the active model |
| ModelAndView.ModelAndViewContainer.SetUseRedirectModel | org.springframework.web/src/main/java/org/springframework/web/method/support/ModelAndViewContainer.java:154-160 | the flag is set (no method clears it); a redirect model that is set becomes active |
| ModelAndView.ModelAndViewContainer.AddAttribute | org.springframework.web/src/main/java/org/springframework/web/method/support/ModelAndViewContainer.java:162-169 | the attribute is put into the active model; the other model and the container's fields are unchanged |
| ModelAndView.ModelAndViewContainer.AddAttributeByConvention | org.springframework.web/src/main/java/org/springframework/web/method/support/ModelAndViewContainer.java:171-178 | a null value is rejected, an empty collection is skipped, any other value is put under its conventional name, into the active model only |
| ModelAndView.ModelAndViewContainer.AddAllAttributes | org.springframework.web/src/main/java/org/springframework/web/method/support/ModelAndViewContainer.java:180-187 | the active model becomes the putAll of the attributes; the other model is unchanged |
| ModelAndView.ModelAndViewContainer.MergeAttributes | org.springframework.web/src/main/java/org/springframework/web/method/support/ModelAndViewContainer.java:189-197 | the active model becomes the merge of the attributes, every existing attribute keeps its value, and the other model is unchanged |
| ModelAndView.ModelAndViewContainer.ContainsAttribute | org.springframework.web/src/main/java/org/springframework/web/method/support/ModelAndViewContainer.java:199-205 | true exactly when the active model has an attribute of that name |
| ModelAndView.ModelAndViewContainer.ToString | org.springframework.web/src/main/java/org/springframework/web/method/support/ModelAndViewContainer.java:207-226 | starts with "ModelAndViewContainer: "; without view resolution it is "ModelAndViewContainer: View resolution not required"; with it, the rest is the description of the view and of the active model, and the text ends with the model's closing brace exactly then |
| ModelAndView.ViewPart | org.springframework.web/src/main/java/org/springframework/web/method/support/ModelAndViewContainer.java:213-219 | the view reads "reference to view with name '<name>'" exactly when it is a view reference, "View is [<view>]" otherwise |
| ModelAndView.Description | org.springframework.web/src/main/java/org/springframework/web/method/support/ModelAndViewContainer.java:213-220 | the text is the view part followed by "; model is " and the model's text, with nothing else between or around them; it starts as a view reference exactly when the view is one |

## Left out

- The event source (`readerContext.extractSource`) is left out, and so is the problem location passed with each report. A report carries the exception's cause and its exception class; the report text is not modelled. `ComponentScan.Message` is the text the parser passes to the exception's constructor, for the causes whose message the parser writes.
- The reader context's problem reporter is modelled as one that collects reports. With the default fail-fast reporter, the first reported filter error would end the parse instead.
- The classpath scan of `ComponentScanMetadataReader` is left out. It reads class files, and it is a parameter of `ComponentScan.Parse`. The reader's bean-definition defaults and autowire-candidate patterns are left out with it.
- The registration of the annotation-config processors is left out. Its result is a parameter of `ComponentScan.RegisterComponents`. The registry writes it makes are not modelled.
- `ComponentScanMetadata` is not part of this model. It is a value whose defaults are assumed: annotation config on, default filters on, resource pattern `**/*.class`, and no strategies or scoped-proxy mode.
- Reflection and pattern compilation are left out. Class loading is a table of descriptors. Whether a class can be instantiated comes from its descriptor. Pattern compilation is a set of rejected expressions. Filters hold the loaded class or the pattern text, not a compiled matcher.
- The text of exceptions raised outside the parser is left out. This covers `BeanUtils.instantiateClass`, the regular-expression compiler and the AspectJ parser. Only the cause and its exception class are modelled.
- Exception causes (`ex.getCause()`) are left out.
- Errors that the class loader or a strategy's constructor raises while loading or running are left out. The model treats a loaded class with a usable constructor as instantiable.
- ComponentScan.ParseComponentScanMetadata: the source is one method. The model splits it into `ParseAttributes` (the attribute setters, itself split into `ParseSettings` and `ParseStrategies`) and `ParseFilterChildren` (the loop over the children). The combined behaviour is the same.
- ComponentScan.Parse: the steps after parsing (scan and registration) are the helper `ScanAndRegister`. The combined behaviour is the same.
- ComponentScan.ParseAttributes: the setters on the metadata object are written as updates of a metadata value.
- The DOM is left out. `getLocalName` is a field of the element record, and `getAttribute` of an absent attribute gives the empty string.
- The source of `ModelMap` and `BindingAwareModelMap` is not part of this model. The class `ModelMaps.ModelMap` follows their documented behaviour:
  - a `LinkedHashMap` ordered by first insertion;
  - `addAttribute(Object)` rejects null, skips empty collections, and uses a naming convention that is a parameter (`nameOf`);
  - a null map given to `addAllAttributes` or `mergeAttributes` is ignored.
- `BindingAwareModelMap` removes a stale binding result when an attribute is replaced. This is not modelled.
- Null attribute names are left out. `ModelMap` rejects them, and a `string` cannot be null.
- A null view name is left out. `setViewName(null)` is `SetView(NoView)`.
- Attribute values and View objects are modelled only through the text their `toString` gives.
- The `ModelAndViewContainer` methods return `this` for chaining. The model's methods return nothing.
- The map's `toString` printing "(this Map)" for a value that is the map itself is left out.
- A filter class that cannot be loaded is not fatal to the parse. `createTypeFilter` turns it into a `FatalBeanException` (ComponentScanBeanDefinitionParser.java line 241), and the children loop's `catch (Exception ex)` (line 175) catches that and reports it like any other filter error. The model reports it.
