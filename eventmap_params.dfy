/**
 * The lint rule `eventmap-params`: in a Blaze event map
 * `<template>.events({ "<selector>": function (event, templateInstance) { ... } })`
 * every handler's first two parameters must carry the configured names.
 *
 * The rule's behaviour is given by the functions `CallDiagnostics` and its
 * helpers, which compute the diagnostics a call node produces. The classes
 * `RuleContext` and `Rule` model the rule as the linting engine runs it: the
 * visitor appends to the context's report list and is proved to append exactly
 * what `CallDiagnostics` says.
 */
module EventMapParams {

  import opened Wrappers
  import opened Syntax

  // ---------------------------------------------------------------------------
  // Options
  // ---------------------------------------------------------------------------

  /** One options object after the engine has validated it against `Schema`; `None` is an absent key. */
  datatype RuleOptions = RuleOptions(eventParamName: Option<string>, templateInstanceParamName: Option<string>)

  const DefaultEventParamName: string := "event"
  const DefaultTemplateInstanceParamName: string := "templateInstance"

  /** `context.options[0] || {}`: the first options object, or the empty one. */
  function FirstOptions(options: seq<RuleOptions>): RuleOptions {
    if |options| > 0 then options[0] else RuleOptions(None, None)
  }

  /** The expected name of parameter 0: `eventParamName`, defaulting to "event". */
  function EventParamName(options: seq<RuleOptions>): string {
    FirstOptions(options).eventParamName.GetOr(DefaultEventParamName)
  }

  /** The expected name of parameter 1: `templateInstanceParamName`, defaulting to "templateInstance". */
  function TemplateInstanceParamName(options: seq<RuleOptions>): string {
    FirstOptions(options).templateInstanceParamName.GetOr(DefaultTemplateInstanceParamName)
  }

  // ---------------------------------------------------------------------------
  // Options schema
  // ---------------------------------------------------------------------------

  /** A configuration value as the engine reads it from a configuration file. */
  datatype Json =
    | JString(s: string)
    | JObject(fields: map<string, Json>)
    | JOther  // a number, boolean, null or array

  const EventParamNameKey: string := "eventParamName"
  const TemplateInstanceParamNameKey: string := "templateInstanceParamName"

  predicate IsOptionKey(key: string) {
    key == EventParamNameKey || key == TemplateInstanceParamNameKey
  }

  /**
   * The shape `schema` accepts for the options object: an object whose only
   * keys are the two option names, each holding a string; either may be absent.
   */
  predicate Schema(raw: Json) {
    && raw.JObject?
    && forall key :: key in raw.fields ==> IsOptionKey(key) && raw.fields[key].JString?
  }

  function StringField(fields: map<string, Json>, key: string): Option<string> {
    if key in fields && fields[key].JString? then Some(fields[key].s) else None
  }

  /** Reads an options object: `None` when `Schema` rejects it, its two fields otherwise. */
  function ParseOptions(raw: Json): (r: Option<RuleOptions>)
    ensures r.Some? <==> Schema(raw)
    ensures r.Some? ==> (r.value.eventParamName.Some? <==> EventParamNameKey in raw.fields)
    ensures r.Some? ==> (r.value.templateInstanceParamName.Some? <==> TemplateInstanceParamNameKey in raw.fields)
  {
    if Schema(raw) then
      Some(RuleOptions(StringField(raw.fields, EventParamNameKey),
                       StringField(raw.fields, TemplateInstanceParamNameKey)))
    else
      None
  }

  /** The options object that spells out `o`, with a key for each supplied option. */
  function OptionsToJson(o: RuleOptions): (raw: Json)
    ensures Schema(raw)
  {
    var e := if o.eventParamName.Some? then map[EventParamNameKey := JString(o.eventParamName.value)] else map[];
    var t := if o.templateInstanceParamName.Some?
             then map[TemplateInstanceParamNameKey := JString(o.templateInstanceParamName.value)]
             else map[];
    JObject(e + t)
  }

  // ---------------------------------------------------------------------------
  // Diagnostics
  // ---------------------------------------------------------------------------

  /** What `context.report(node, message)` records. */
  datatype Diagnostic = Diagnostic(node: Param, message: string)

  const MessagePrefix: string := "Invalid parameter name, use \""
  const MessageSuffix: string := "\" instead"

  function InvalidParamMessage(expectedParamName: string): string {
    MessagePrefix + expectedParamName + MessageSuffix
  }

  /** `ensureParamName(param, expected)`: a diagnostic at `param` when it is present and not named `expected`. */
  function ParamDiagnostics(param: Option<Param>, expectedParamName: string): seq<Diagnostic> {
    if param.Some? && !HasName(param.value, expectedParamName) then
      [Diagnostic(param.value, InvalidParamMessage(expectedParamName))]
    else
      []
  }

  /** `validateEventDefinition`: checks parameters 0 and 1 of a function-like handler, in that order. */
  function HandlerDiagnostics(options: seq<RuleOptions>, handler: Expr): seq<Diagnostic> {
    if IsFunction(handler) then
      ParamDiagnostics(ParamAt(handler.params, 0), EventParamName(options))
      + ParamDiagnostics(ParamAt(handler.params, 1), TemplateInstanceParamName(options))
    else
      []
  }

  /**
   * `validateEventDefinition` for one entry of the event map: the handler's
   * diagnostics for a `key: value` property, and nothing for a spread entry,
   * which has no handler of its own to check.
   */
  function PropertyDiagnostics(options: seq<RuleOptions>, property: Property): seq<Diagnostic> {
    match property
    case Property(_, value) => HandlerDiagnostics(options, value)
    case SpreadElement(_) => []
  }

  /** `properties.forEach(validateEventDefinition)`: the entries' diagnostics in source order. */
  function PropertiesDiagnostics(options: seq<RuleOptions>, properties: seq<Property>): seq<Diagnostic>
    decreases |properties|
  {
    if |properties| == 0 then
      []
    else
      PropertiesDiagnostics(options, properties[..|properties| - 1])
      + PropertyDiagnostics(options, properties[|properties| - 1])
  }

  /**
   * `validateEventDefinition` as written: `node.value` of a spread entry is
   * `undefined`, and reading its `type` throws, which `None` stands for here.
   */
  function ValidateEventDefinitionAsWritten(options: seq<RuleOptions>, property: Property): Option<seq<Diagnostic>> {
    match property
    case Property(_, value) => Some(HandlerDiagnostics(options, value))
    case SpreadElement(_) => None
  }

  /** The `forEach` as written: the first entry that throws aborts the whole walk. */
  function PropertiesOutcomeAsWritten(options: seq<RuleOptions>, properties: seq<Property>): Option<seq<Diagnostic>>
    decreases |properties|
  {
    if |properties| == 0 then
      Some([])
    else
      match PropertiesOutcomeAsWritten(options, properties[..|properties| - 1])
      case None => None
      case Some(earlier) =>
        match ValidateEventDefinitionAsWritten(options, properties[|properties| - 1])
        case None => None
        case Some(last) => Some(earlier + last)
  }

  /**
   * The `CallExpression` visitor: a call with arguments whose callee is a
   * template's `events` property, and whose first argument is an object
   * literal, has that literal's handlers checked; any other call reports nothing.
   * `isTemplateProp` is the syntactic helper of that name.
   */
  function CallDiagnostics(isTemplateProp: (Expr, string) -> bool, options: seq<RuleOptions>,
                           node: CallExpression): seq<Diagnostic>
  {
    if |node.arguments| == 0 || !isTemplateProp(node.callee, "events") then
      []
    else
      match node.arguments[0]
      case ObjectExpression(properties) => PropertiesDiagnostics(options, properties)
      case _ => []
  }

  // ---------------------------------------------------------------------------
  // The rule as the engine runs it
  // ---------------------------------------------------------------------------

  /** The engine's per-file context: the configured options and the diagnostics reported so far. */
  class RuleContext {
    const options: seq<RuleOptions>
    var reports: seq<Diagnostic>

    constructor (options: seq<RuleOptions>)
      ensures this.options == options && reports == []
    {
      this.options := options;
      reports := [];
    }

    /** `context.report(node, message)`. */
    method Report(node: Param, message: string)
      modifies this
      ensures reports == old(reports) + [Diagnostic(node, message)]
    {
      reports := reports + [Diagnostic(node, message)];
    }
  }

  /** The rule instance the factory `context => { ... }` builds over one context. */
  class Rule {
    const context: RuleContext
    const isTemplateProp: (Expr, string) -> bool

    constructor (context: RuleContext, isTemplateProp: (Expr, string) -> bool)
      ensures this.context == context && this.isTemplateProp == isTemplateProp
    {
      this.context := context;
      this.isTemplateProp := isTemplateProp;
    }

    method EnsureParamName(param: Option<Param>, expectedParamName: string)
      modifies context
      ensures context.reports == old(context.reports) + ParamDiagnostics(param, expectedParamName)
    {
      if param.Some? && !(param.value.Named? && param.value.name == expectedParamName) {
        context.Report(param.value, InvalidParamMessage(expectedParamName));
      }
    }

    method ValidateEventDefinition(property: Property)
      modifies context
      ensures context.reports == old(context.reports) + PropertyDiagnostics(context.options, property)
    {
      if property.SpreadElement? {
        return;
      }
      var eventHandler := property.value;
      if eventHandler.Function? {
        var first := FirstOptions(context.options);
        var eventParamName := first.eventParamName.GetOr(DefaultEventParamName);
        var templateInstanceParamName := first.templateInstanceParamName.GetOr(DefaultTemplateInstanceParamName);
        EnsureParamName(ParamAt(eventHandler.params, 0), eventParamName);
        EnsureParamName(ParamAt(eventHandler.params, 1), templateInstanceParamName);
      }
    }

    /** The `CallExpression` visitor. */
    method OnCallExpression(node: CallExpression)
      modifies context
      ensures context.reports == old(context.reports) + CallDiagnostics(isTemplateProp, context.options, node)
    {
      if |node.arguments| == 0 || !isTemplateProp(node.callee, "events") {
        return;
      }
      var eventMap := node.arguments[0];
      if eventMap.ObjectExpression? {
        var properties := eventMap.properties;
        var i := 0;
        while i < |properties|
          invariant 0 <= i <= |properties|
          invariant context.reports == old(context.reports) + PropertiesDiagnostics(context.options, properties[..i])
        {
          ValidateEventDefinition(properties[i]);
          assert properties[..i + 1][..i] == properties[..i];
          i := i + 1;
        }
        assert properties[..|properties|] == properties;
      }
    }
  }
}
