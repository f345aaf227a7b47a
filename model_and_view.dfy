/** ModelAndViewContainer: the model and view decisions that argument resolvers and return value
    handlers record while a controller method is invoked. */
module ModelAndView {
  import opened Wrappers
  import opened ModelMaps

  /** The `view` field: null, a view name (a String) to be resolved by a ViewResolver, or another
      View object, with the text its toString gives. */
  datatype View = NoView | ViewName(name: string) | ViewObject(display: string)

  /** String.valueOf(view). */
  function ViewDisplay(v: View): string
  {
    match v
    case NoView => "null"
    case ViewName(name) => name
    case ViewObject(display) => display
  }

  const TO_STRING_PREFIX := "ModelAndViewContainer: "
  const RESOLUTION_NOT_REQUIRED := "ModelAndViewContainer: View resolution not required"
  const VIEW_REFERENCE_PREFIX := "reference to view with name '"
  const VIEW_OBJECT_PREFIX := "View is ["
  const MODEL_PREFIX := "; model is "

  predicate StartsWith(s: string, prefix: string)
  {
    |prefix| <= |s| && s[..|prefix|] == prefix
  }

  predicate EndsWith(s: string, suffix: string)
  {
    |suffix| <= |s| && s[|s| - |suffix|..] == suffix
  }

  /** The text that describes a View object never reads as the description of a view reference. */
  lemma ObjectIsNoReference(display: string, rest: string)
    ensures !StartsWith(VIEW_OBJECT_PREFIX + display + "]" + rest, VIEW_REFERENCE_PREFIX)
  {
    assert (VIEW_OBJECT_PREFIX + display + "]" + rest)[0] == 'V';
  }

  /** A prefix of a prefix is a prefix; and of two prefixes of one text, the shorter is a prefix of
      the longer. */
  lemma PrefixOfPrefix(s: string, t: string, p: string)
    requires StartsWith(s, t) && |p| <= |t|
    ensures StartsWith(s, p) <==> StartsWith(t, p)
  {
    assert s[..|p|] == t[..|p|];
  }

  /** Where the three parts of a concatenation are found in it. */
  lemma ConcatParts(a: string, b: string, c: string)
    ensures StartsWith(a + b + c, a) && (a + b + c)[|a|..] == b + c
    ensures StartsWith(b + c, b) && EndsWith(a + b + c, c)
  {
    assert (a + b + c)[..|a|] == a;
    assert (a + b + c)[|a|..] == b + c;
    assert (b + c)[..|b|] == b;
    assert (a + b + c)[|a + b|..] == c;
  }

  /** How the diagnostic text describes the view: as a reference when it is a view name
      (isViewReference), as a View otherwise. */
  function ViewPart(v: View): (t: string)
    ensures v.ViewName? <==> StartsWith(t, VIEW_REFERENCE_PREFIX)
    ensures v.ViewName? ==> t == VIEW_REFERENCE_PREFIX + v.name + "'"
    ensures !v.ViewName? ==> t == VIEW_OBJECT_PREFIX + ViewDisplay(v) + "]"
  {
    ConcatParts(VIEW_REFERENCE_PREFIX, ViewDisplay(v), "'");
    ObjectIsNoReference(ViewDisplay(v), "");
    assert VIEW_OBJECT_PREFIX + ViewDisplay(v) + "]" + "" == VIEW_OBJECT_PREFIX + ViewDisplay(v) + "]";
    if v.ViewName? then VIEW_REFERENCE_PREFIX + ViewDisplay(v) + "'"
    else VIEW_OBJECT_PREFIX + ViewDisplay(v) + "]"
  }

  /** What the diagnostic text says after its prefix when view resolution is required: the view,
      then the model's text. */
  function Description(v: View, modelText: string): (d: string)
    ensures |d| == |ViewPart(v)| + |MODEL_PREFIX| + |modelText|
    ensures StartsWith(d, ViewPart(v))
    ensures EndsWith(d, MODEL_PREFIX + modelText)
    ensures v.ViewName? <==> StartsWith(d, VIEW_REFERENCE_PREFIX)
  {
    var viewText := ViewPart(v);
    ConcatParts("", viewText, MODEL_PREFIX + modelText);
    assert "" + viewText + (MODEL_PREFIX + modelText) == viewText + (MODEL_PREFIX + modelText);
    if v.ViewName? then
      PrefixOfPrefix(viewText + (MODEL_PREFIX + modelText), viewText, VIEW_REFERENCE_PREFIX);
      viewText + (MODEL_PREFIX + modelText)
    else
      ObjectIsNoReference(ViewDisplay(v), MODEL_PREFIX + modelText);
      viewText + (MODEL_PREFIX + modelText)
  }

  class ModelAndViewContainer {
    var view: View
    var resolveView: bool
    /** The default model, created with the container and never replaced. */
    const model: ModelMap
    var redirectModel: ModelMap?
    var useRedirectModel: bool

    ghost predicate Valid()
      reads this, model, redirectModel
    {
      model.Valid() && (redirectModel != null ==> redirectModel.Valid())
    }

    /** A container without a view, with view resolution required, a new empty default model, no
        redirect model, and the redirect model not in use. */
    constructor ()
      ensures Valid() && fresh(model)
      ensures view == NoView && resolveView
      ensures model.attributes == EMPTY && redirectModel == null && !useRedirectModel
      ensures GetModel() == model
    {
      view := NoView;
      resolveView := true;
      model := new ModelMap();
      redirectModel := null;
      useRedirectModel := false;
    }

    /** Sets a view name, replacing any view name or View set before. */
    method SetViewName(viewName: string)
      modifies this
      ensures view == ViewName(viewName)
      ensures GetViewName() == Some(viewName) && IsViewReference()
      ensures resolveView == old(resolveView) && redirectModel == old(redirectModel)
      ensures useRedirectModel == old(useRedirectModel)
    {
      view := ViewName(viewName);
    }

    /** The view name, or nothing when the view is not a String. */
    function GetViewName(): (r: Option<string>)
      reads this
      ensures r.Some? <==> IsViewReference()
      ensures r.Some? ==> view == ViewName(r.value)
    {
      if view.ViewName? then Some(view.name) else None
    }

    /** Sets the view, replacing any view name or View set before; a String is a view name. */
    method SetView(v: View)
      modifies this
      ensures GetView() == v
      ensures IsViewReference() <==> v.ViewName?
      ensures resolveView == old(resolveView) && redirectModel == old(redirectModel)
      ensures useRedirectModel == old(useRedirectModel)
    {
      view := v;
    }

    /** The view object or, for a view reference, the name itself. */
    function GetView(): (v: View)
      reads this
      ensures v == view
      ensures v.ViewName? <==> IsViewReference()
      ensures v.ViewName? ==> GetViewName() == Some(v.name)
    {
      view
    }

    /** Whether the view is a name for a ViewResolver to resolve. */
    predicate IsViewReference()
      reads this
      ensures IsViewReference() <==> exists name :: view == ViewName(name)
    {
      view.ViewName?
    }

    method SetResolveView(resolve: bool)
      modifies this
      ensures IsResolveView() == resolve
      ensures view == old(view) && redirectModel == old(redirectModel)
      ensures useRedirectModel == old(useRedirectModel)
    {
      resolveView := resolve;
    }

    /** Whether a view is to be resolved; the constructor sets it, SetResolveView changes it. */
    predicate IsResolveView()
      reads this
      ensures IsResolveView() == resolveView
    {
      resolveView
    }

    /** The model attributes go to: the redirect model once one is set and its use enabled, the
        default model otherwise. */
    function GetModel(): (m: ModelMap)
      reads this
      ensures m == model || m == redirectModel
      ensures m == redirectModel <== redirectModel != null && useRedirectModel
      ensures m == model <== redirectModel == null || !useRedirectModel
    {
      if redirectModel != null && useRedirectModel then redirectModel else model
    }

    /** Provides the model to use on a redirect; it becomes the active model only once its use is
        enabled. */
    method SetRedirectModel(redirect: ModelMap?)
      requires Valid()
      requires redirect != null ==> redirect.Valid()
      modifies this
      ensures Valid()
      ensures GetRedirectModel() == redirect
      ensures GetModel() == if redirect != null && useRedirectModel then redirect else model
      ensures view == old(view) && resolveView == old(resolveView)
      ensures useRedirectModel == old(useRedirectModel)
    {
      redirectModel := redirect;
    }

    /** The redirect model set, whether or not it is active. */
    function GetRedirectModel(): (r: ModelMap?)
      reads this
      ensures r == redirectModel
      ensures r != null && useRedirectModel ==> GetModel() == r
    {
      redirectModel
    }

    /** Enables the redirect model. The flag is only ever set, so enabling is idempotent and
        cannot be undone. */
    method SetUseRedirectModel()
      modifies this
      ensures useRedirectModel
      ensures redirectModel != null ==> GetModel() == redirectModel
      ensures view == old(view) && resolveView == old(resolveView) && redirectModel == old(redirectModel)
    {
      useRedirectModel := true;
    }

    /** Adds an attribute to the active model only. */
    method AddAttribute(name: string, value: Value)
      requires Valid()
      modifies GetModel()
      ensures Valid()
      ensures GetModel().attributes == Put(old(GetModel().attributes), name, value)
      ensures GetModel() != model ==> unchanged(model)
      ensures GetModel() != redirectModel && redirectModel != null ==> unchanged(redirectModel)
    {
      GetModel().AddAttribute(name, value);
    }

    /** Adds an attribute under its conventional name to the active model only; a null value is
        rejected and an empty collection is not added. */
    method AddAttributeByConvention(value: Value, nameOf: Value -> string) returns (rejected: bool)
      requires Valid()
      modifies GetModel()
      ensures Valid()
      ensures rejected <==> value.Null?
      ensures GetModel().attributes ==
        if value.Null? || (value.Collection? && value.size == 0) then old(GetModel().attributes)
        else Put(old(GetModel().attributes), nameOf(value), value)
      ensures GetModel() != model ==> unchanged(model)
      ensures GetModel() != redirectModel && redirectModel != null ==> unchanged(redirectModel)
    {
      rejected := GetModel().AddAttributeByConvention(value, nameOf);
    }

    /** Copies all attributes to the active model only, replacing values of existing names. */
    method AddAllAttributes(attributes: Option<AttributeMap>)
      requires Valid()
      requires attributes.Some? ==> Wf(attributes.value)
      modifies GetModel()
      ensures Valid()
      ensures GetModel().attributes ==
        if attributes.None? then old(GetModel().attributes) else PutAll(old(GetModel().attributes), attributes.value)
      ensures GetModel() != model ==> unchanged(model)
      ensures GetModel() != redirectModel && redirectModel != null ==> unchanged(redirectModel)
    {
      GetModel().AddAllAttributes(attributes);
    }

    /** Copies the attributes whose names the active model lacks, to the active model only. */
    method MergeAttributes(attributes: Option<AttributeMap>)
      requires Valid()
      requires attributes.Some? ==> Wf(attributes.value)
      modifies GetModel()
      ensures Valid()
      ensures GetModel().attributes ==
        if attributes.None? then old(GetModel().attributes) else Merge(old(GetModel().attributes), attributes.value)
      ensures forall k :: k in old(GetModel().attributes.values) ==>
        k in GetModel().attributes.values && GetModel().attributes.values[k] == old(GetModel().attributes.values[k])
      ensures GetModel() != model ==> unchanged(model)
      ensures GetModel() != redirectModel && redirectModel != null ==> unchanged(redirectModel)
    {
      if attributes.Some? {
        MergeValues(GetModel().attributes, attributes.value);
      }
      GetModel().MergeAttributes(attributes);
    }

    /** Whether the active model has an attribute of this name. */
    function ContainsAttribute(name: string): (b: bool)
      requires Valid()
      reads this, model, redirectModel
      ensures b <==> name in GetModel().attributes.keys
    {
      GetModel().ContainsAttribute(name)
    }

    /** The diagnostic text: the view and the active model when view resolution is required, a
        fixed sentence otherwise. */
    function ToString(): (s: string)
      requires Valid()
      reads this, model, redirectModel
      ensures StartsWith(s, TO_STRING_PREFIX) && |s| > |TO_STRING_PREFIX|
      ensures !resolveView ==> s == RESOLUTION_NOT_REQUIRED
      ensures resolveView <==> s[|s| - 1] == '}'
      ensures resolveView ==> s[|TO_STRING_PREFIX|..] == Description(view, GetModel().ToString())
    {
      if resolveView then
        var d := Description(view, GetModel().ToString());
        ConcatParts(TO_STRING_PREFIX, d, "");
        assert TO_STRING_PREFIX + d + "" == TO_STRING_PREFIX + d;
        TO_STRING_PREFIX + d
      else
        RESOLUTION_NOT_REQUIRED
    }
  }
}
