# eventmap-params, modelled in Dafny

A model of the ESLint rule `eventmap-params` from `eslint-plugin-meteor`. The rule checks Blaze event maps, that is, calls
`<template>.events({ "<selector>": handler, ... })`. Each function-like handler's first parameter should be named
`event` and its second `templateInstance`. The rule options `eventParamName` and `templateInstanceParamName` can
change either name. A present parameter at one of those two positions whose name differs gets one diagnostic,
`Invalid parameter name, use "<expected>" instead`, anchored at that parameter.

Files:

- `syntax.dfy` (module `Syntax`): the part of the ESTree syntax tree the rule reads. It covers call expressions,
  object literals, their entries (a `key: value` property or a spread entry `...x`), function-like nodes and
  parameters. A parameter is `Named(name)` or `Unnamed`.
  `Unnamed` stands for a destructured or defaulted parameter, whose `name` is `undefined`.
- `eventmap_params.dfy` (module `EventMapParams`): the rule.
  - The pure part: option defaulting, the options shape accepted by `schema`, and the functions `ParamDiagnostics`,
    `HandlerDiagnostics`, `PropertyDiagnostics`, `PropertiesDiagnostics` and `CallDiagnostics`. These give the diagnostics a call node
    produces, in order.
  - The imperative part, as the engine runs it: class `RuleContext` holds `options` and the list of reports, and
    `Report` appends one `(node, message)` pair. Class `Rule` is the closure the rule factory builds. Its methods
    `EnsureParamName`, `ValidateEventDefinition` and `OnCallExpression` (the `CallExpression` visitor) report
    through the context. Each one is proved to append exactly what the matching function says.
- `eventmap_params_properties.dfy` (module `EventMapParamsProperties`): lemmas stating what the rule promises.
- `wrappers.dfy` (module `Wrappers`): `Option`, standing in for JavaScript's `undefined`.

The two helpers the rule imports from `lib/util/ast` are modelled abstractly. `isFunction(type)` is the `Function`
variant of `Syntax.Expr`, which stands for every node type the helper accepts. `isTemplateProp(callee, name)` is a
parameter `(Expr, string) -> bool`, so every lemma holds whatever that predicate is. `lib/util/ast` is not part of
this model.

A parameter with no simple name is not skipped. The code compares `param.name !== expected`, and `undefined` equals
no string, so such a parameter is always reported (`UnnamedParamAlwaysReported`). An options key set to the empty string is
kept as the empty string, because destructuring defaults apply only to `undefined`.

## Model

| member | source | states |
|---|---|---|
| `Syntax.IsFunction` | lib/rules/eventmap-params.js:30 | the `isFunction(type)` test: a node is function-like exactly when it is the `Function` variant; `NonFunctionHandlerIsSilent` and `HandlerChecksFirstTwo` characterise its use |
| `Syntax.HasName` | lib/rules/eventmap-params.js:20 | `param.name === expected`, false for an `Unnamed` parameter; characterised by `PresentParamChecked` and `UnnamedParamAlwaysReported` |
| `Syntax.ParamAt` | lib/rules/eventmap-params.js:36-37 | `params[i]` is present exactly when the handler has more than `i` parameters, and is then that parameter |
| `EventMapParams.FirstOptions` | lib/rules/eventmap-params.js:34 | `context.options[0] \|\| {}`; characterised by `NoOptionsDefaults` and `OnlyFirstOptionsRead` |
| `EventMapParams.EventParamName` | lib/rules/eventmap-params.js:31-32 | the expected name at position 0; characterised by `NoOptionsDefaults`, `AbsentKeyDefaults` and `EventParamNameOverridesOnlyItself` |
| `EventMapParams.TemplateInstanceParamName` | lib/rules/eventmap-params.js:31-33 | the expected name at position 1; characterised by `NoOptionsDefaults`, `AbsentKeyDefaults` and `TemplateInstanceParamNameOverridesOnlyItself` |
| `EventMapParams.Schema` | lib/rules/eventmap-params.js:59-72 | the accepted options shape; characterised by `ParseOptions`, `UnknownKeyRejected`, `NonStringOptionRejected` and the two round-trip lemmas |
| `EventMapParams.InvalidParamMessage` | lib/rules/eventmap-params.js:23 | the diagnostic message; characterised by `MessageNamesExpected`, `MessageInjective` and `UnnamedParamAlwaysReported` |
| `EventMapParams.ParamDiagnostics` | lib/rules/eventmap-params.js:19-26 | `ensureParamName`; characterised by `MissingParamIsSilent`, `PresentParamChecked` and `UnnamedParamAlwaysReported` |
| `EventMapParams.HandlerDiagnostics` | lib/rules/eventmap-params.js:29-38 | a handler's check; characterised by `NonFunctionHandlerIsSilent`, `HandlerChecksFirstTwo`, `HandlerAtMostTwo`, `LaterParamsIgnored` and `HandlerCleanIff` |
| `EventMapParams.PropertyDiagnostics` | lib/rules/eventmap-params.js:28-39 | `validateEventDefinition` for one entry, a spread entry skipped (see Findings); characterised by `SpreadEntrySkipped` and `PropertySourceOrder` |
| `EventMapParams.PropertiesDiagnostics` | lib/rules/eventmap-params.js:53 | the `forEach` over the entries; characterised by `PropertiesAppend`, `PropertySourceOrder`, `PropertiesAtMostTwoEach`, `PropertiesDiagnosticOrigin`, `PropertiesCleanIff` and `SameNamesSameDiagnostics` |
| `EventMapParams.CallDiagnostics` | lib/rules/eventmap-params.js:46-55 | the `CallExpression` visitor; characterised by `NotAnEventsCallIsSilent`, `NonObjectEventMapIsSilent`, `LaterArgumentsIgnored`, `EventsCallChecksProperties`, `CallDiagnosticIsMisnamedParam` and `MisnamedParamIsReported` |
| `EventMapParams.ValidateEventDefinitionAsWritten` | lib/rules/eventmap-params.js:28-30 | `validateEventDefinition` as written, throwing on a spread entry; characterised by `AsWrittenThrowsOnSpread` |
| `EventMapParams.PropertiesOutcomeAsWritten` | lib/rules/eventmap-params.js:53 | the `forEach` as written, aborted by the first entry that throws; characterised by `AsWrittenThrowsOnSpread` and `SpreadEventMapExample` |
| `EventMapParams.ParseOptions` | lib/rules/eventmap-params.js:59-72 | an options object is accepted exactly when the schema's shape holds (an object, only the two keys, string values); an accepted object's key is present exactly when the read option is supplied |
| `EventMapParams.OptionsToJson` | lib/rules/eventmap-params.js:59-72 | the object that spells out any options satisfies the schema's shape |
| `EventMapParams.RuleContext.Report` | lib/rules/eventmap-params.js:21-24 | reporting appends one `(node, message)` diagnostic and changes nothing else |
| `EventMapParams.Rule.EnsureParamName` | lib/rules/eventmap-params.js:19-26 | appends to the context's reports exactly the diagnostics `ParamDiagnostics` gives for the parameter |
| `EventMapParams.Rule.ValidateEventDefinition` | lib/rules/eventmap-params.js:28-39 | appends exactly the entry's diagnostics for the context's options: position 0, then position 1, and nothing for a spread entry |
| `EventMapParams.Rule.OnCallExpression` | lib/rules/eventmap-params.js:46-55 | the visitor, with its loop over the properties, appends exactly `CallDiagnostics` of the node |
| `EventMapParamsProperties.NotAnEventsCallIsSilent` | lib/rules/eventmap-params.js:47-49 | a call with no arguments, or whose callee is not a template's `events` property, reports nothing |
| `EventMapParamsProperties.NonObjectEventMapIsSilent` | lib/rules/eventmap-params.js:50-54 | a first argument that is not an object literal reports nothing |
| `EventMapParamsProperties.LaterArgumentsIgnored` | lib/rules/eventmap-params.js:50 | arguments after the first never change the diagnostics |
| `EventMapParamsProperties.EventsCallChecksProperties` | lib/rules/eventmap-params.js:47-54 | an `events` call on an object literal reports exactly its properties' diagnostics |
| `EventMapParamsProperties.MissingParamIsSilent` | lib/rules/eventmap-params.js:20 | a missing parameter is not reported |
| `EventMapParamsProperties.PresentParamChecked` | lib/rules/eventmap-params.js:19-25 | a present parameter is silent when named as expected, and otherwise gets exactly one diagnostic at it with the message naming the expected name |
| `EventMapParamsProperties.UnnamedParamAlwaysReported` | lib/rules/eventmap-params.js:20-24 | a parameter with no simple name at a checked position is always reported, with the literal message text |
| `EventMapParamsProperties.MessageNamesExpected` | lib/rules/eventmap-params.js:23 | the expected name is recovered from the message, between its fixed prefix and suffix |
| `EventMapParamsProperties.MessageInjective` | lib/rules/eventmap-params.js:23 | different expected names give different messages |
| `EventMapParamsProperties.NonFunctionHandlerIsSilent` | lib/rules/eventmap-params.js:29-30 | a property whose value is not function-like reports nothing |
| `EventMapParamsProperties.HandlerChecksFirstTwo` | lib/rules/eventmap-params.js:36-37 | a handler's diagnostics are the position-0 one (if present and misnamed) followed by the position-1 one (if present and misnamed) |
| `EventMapParamsProperties.HandlerAtMostTwo` | lib/rules/eventmap-params.js:36-37 | a handler reports at most two diagnostics |
| `EventMapParamsProperties.LaterParamsIgnored` | lib/rules/eventmap-params.js:36-37 | parameters at position 2 and beyond never change a handler's diagnostics |
| `EventMapParamsProperties.HandlerCleanIff` | lib/rules/eventmap-params.js:19-20 | a handler reports nothing exactly when each of its first two parameters is missing or correctly named |
| `EventMapParamsProperties.NoOptionsDefaults` | lib/rules/eventmap-params.js:31-34 | without options the expected names are "event" and "templateInstance" |
| `EventMapParamsProperties.AbsentKeyDefaults` | lib/rules/eventmap-params.js:31-34 | an absent key falls back to its own default |
| `EventMapParamsProperties.EventParamNameOverridesOnlyItself` | lib/rules/eventmap-params.js:32 | a supplied `eventParamName` becomes position 0's expected name and leaves position 1's unchanged |
| `EventMapParamsProperties.TemplateInstanceParamNameOverridesOnlyItself` | lib/rules/eventmap-params.js:33 | a supplied `templateInstanceParamName` becomes position 1's expected name and leaves position 0's unchanged |
| `EventMapParamsProperties.OnlyFirstOptionsRead` | lib/rules/eventmap-params.js:34 | options after `context.options[0]` never change the diagnostics |
| `EventMapParamsProperties.SameNamesSameDiagnostics` | lib/rules/eventmap-params.js:31-37 | options matter only through the two expected names they resolve to |
| `EventMapParamsProperties.UnknownKeyRejected` | lib/rules/eventmap-params.js:70 | an options object with any key other than the two option names is rejected |
| `EventMapParamsProperties.NonStringOptionRejected` | lib/rules/eventmap-params.js:63-68 | an option whose value is not a string is rejected |
| `EventMapParamsProperties.ParseOptionsToJson` | lib/rules/eventmap-params.js:59-72 | reading the object that spells out some options gives back those options |
| `EventMapParamsProperties.OptionsToJsonParse` | lib/rules/eventmap-params.js:59-72 | an accepted options object is exactly the object that spells out what was read from it |
| `EventMapParamsProperties.PropertiesAppend` | lib/rules/eventmap-params.js:53 | the diagnostics of two runs of properties are the first run's followed by the second's |
| `EventMapParamsProperties.PropertySourceOrder` | lib/rules/eventmap-params.js:53 | property `i`'s diagnostics come after every earlier property's and before every later one's |
| `EventMapParamsProperties.PropertiesAtMostTwoEach` | lib/rules/eventmap-params.js:36-37 | an event map with `n` properties reports at most `2n` diagnostics |
| `EventMapParamsProperties.PropertiesDiagnosticOrigin` | lib/rules/eventmap-params.js:53 | a diagnostic belongs to an event map exactly when it belongs to one of its properties' handlers |
| `EventMapParamsProperties.PropertiesCleanIff` | lib/rules/eventmap-params.js:53 | an event map reports nothing exactly when every property reports nothing |
| `EventMapParamsProperties.CallDiagnosticIsMisnamedParam` | lib/rules/eventmap-params.js:19-54 | every diagnostic of a call comes from an `events` call on an object literal, at parameter 0 or 1 of a function-like property value that is misnamed for its position, with the message naming the expected name |
| `EventMapParamsProperties.MisnamedParamIsReported` | lib/rules/eventmap-params.js:19-54 | conversely, every present parameter 0 or 1 of a function-like property value of an `events` call's object literal that is misnamed for its position is reported at that parameter, with the message naming the expected name |
| `EventMapParamsProperties.SpreadEntrySkipped` | lib/rules/eventmap-params.js:28-30 | a spread entry reports nothing and leaves the other entries' diagnostics unchanged |
| `EventMapParamsProperties.AsWrittenThrowsOnSpread` | lib/rules/eventmap-params.js:28-30 | as written, the walk throws exactly when the event map has a spread entry, and otherwise reports the same as the corrected rule |
| `EventMapParamsProperties.SpreadEventMapExample` | lib/rules/eventmap-params.js:29-30 | `{ ...shared, "click": function (e) {} }` throws as written, and the corrected rule reports `e` |
| `EventMapParamsProperties.CustomNamesExample` | lib/rules/eventmap-params.js:31-37 | with options `e` and `tmpl`, `function (event, templateInstance)` gets two diagnostics in order and `function (e, tmpl)` none |

## Left out

- `isFunction` and `isTemplateProp` (imported at lib/rules/eventmap-params.js:8): their bodies are in `lib/util/ast`, which is not part of this model. `isFunction` is the `Function` variant of `Syntax.Expr`, and `isTemplateProp` is an arbitrary predicate passed in.
- The linting engine: parsing, traversal order, visitor dispatch and how `context.report` locates and formats a diagnostic. A report is modelled only as appending `(node, message)` to a list.
- JSON-Schema validation machinery: only the shape `schema` accepts for the options object is modelled. How the engine treats the options array itself (its length, and rejecting a config before the rule runs) is engine behaviour. The rule assumes validated options and reads only `context.options[0]`.
- Source positions and node identity: a diagnostic's anchor is the parameter node as a value, so two parameters that are equal as values cannot be told apart.
- Idempotence of repeated runs: it holds because every function here is deterministic. There is no separate lemma for it.
- PropertiesDiagnostics, Rule.ValidateEventDefinition and Rule.OnCallExpression: these skip a spread entry (`...shared`), while the source throws on one (lib/rules/eventmap-params.js:29-30). They model the corrected rule described under "## Findings". The as-written behaviour is `PropertiesOutcomeAsWritten`, and the imperative methods do not model the throw.

## Findings

| source | as written | input that shows it | evidently intended | confidence | as-written member | corrected member |
|---|---|---|---|---|---|---|
| lib/rules/eventmap-params.js:29-30 | `node.value.type` is read for every object-literal entry. A spread entry (`SpreadElement`, or `ExperimentalSpreadProperty` under babel-eslint) has no `value`, so this throws a TypeError and linting the file aborts | `Template.x.events({ ...shared, 'click': function (e) {} })` | skip the spread entry, as other shapes the rule cannot inspect are skipped, and go on checking the remaining handlers | not executed; high, from the ESTree node shapes | `EventMapParamsProperties.AsWrittenThrowsOnSpread` | `EventMapParamsProperties.SpreadEntrySkipped` |
