/** What the `eventmap-params` rule promises, proved about `EventMapParams.CallDiagnostics` and its helpers. */
module EventMapParamsProperties {

  import opened Wrappers
  import opened Syntax
  import opened EventMapParams

  // ---------------------------------------------------------------------------
  // Which calls are examined
  // ---------------------------------------------------------------------------

  /** A call without arguments, or whose callee is not a template's `events` property, reports nothing. */
  lemma NotAnEventsCallIsSilent(isTemplateProp: (Expr, string) -> bool, options: seq<RuleOptions>,
                                node: CallExpression)
    requires |node.arguments| == 0 || !isTemplateProp(node.callee, "events")
    ensures CallDiagnostics(isTemplateProp, options, node) == []
  {
  }

  /** An event map that is not an object literal (a variable, a call, ...) is not checked. */
  lemma NonObjectEventMapIsSilent(isTemplateProp: (Expr, string) -> bool, options: seq<RuleOptions>,
                                  node: CallExpression)
    requires |node.arguments| > 0 && !node.arguments[0].ObjectExpression?
    ensures CallDiagnostics(isTemplateProp, options, node) == []
  {
  }

  /** Only the first argument is examined: the arguments after it never change the diagnostics. */
  lemma LaterArgumentsIgnored(isTemplateProp: (Expr, string) -> bool, options: seq<RuleOptions>,
                              callee: Expr, eventMap: Expr, rest: seq<Expr>, rest': seq<Expr>)
    ensures CallDiagnostics(isTemplateProp, options, CallExpression(callee, [eventMap] + rest))
         == CallDiagnostics(isTemplateProp, options, CallExpression(callee, [eventMap] + rest'))
  {
  }

  /** For an `events` call on an object literal, the diagnostics are exactly those of its properties. */
  lemma EventsCallChecksProperties(isTemplateProp: (Expr, string) -> bool, options: seq<RuleOptions>,
                                   node: CallExpression)
    requires |node.arguments| > 0 && isTemplateProp(node.callee, "events")
    requires node.arguments[0].ObjectExpression?
    ensures CallDiagnostics(isTemplateProp, options, node)
         == PropertiesDiagnostics(options, node.arguments[0].properties)
  {
  }

  // ---------------------------------------------------------------------------
  // One parameter
  // ---------------------------------------------------------------------------

  /** A position the handler has no parameter for is not reported. */
  lemma MissingParamIsSilent(expectedParamName: string)
    ensures ParamDiagnostics(None, expectedParamName) == []
  {
  }

  /**
   * A present parameter is reported exactly when it is not named as expected,
   * then once, at that parameter, with the message naming the expected name.
   */
  lemma PresentParamChecked(p: Param, expectedParamName: string)
    ensures HasName(p, expectedParamName) ==> ParamDiagnostics(Some(p), expectedParamName) == []
    ensures !HasName(p, expectedParamName) ==>
      ParamDiagnostics(Some(p), expectedParamName) == [Diagnostic(p, InvalidParamMessage(expectedParamName))]
  {
  }

  /** A parameter with no simple name (destructured, defaulted) is always reported. */
  lemma UnnamedParamAlwaysReported(expectedParamName: string)
    ensures ParamDiagnostics(Some(Unnamed), expectedParamName)
         == [Diagnostic(Unnamed, "Invalid parameter name, use \"" + expectedParamName + "\" instead")]
  {
  }

  /** The expected name can be read back from the message: the text left between its fixed prefix and suffix. */
  function ExpectedNameOf(message: string): (name: string)
    requires |MessagePrefix| + |MessageSuffix| <= |message|
  {
    message[|MessagePrefix|..|message| - |MessageSuffix|]
  }

  lemma {:induction false} MessageNamesExpected(expectedParamName: string)
    ensures |MessagePrefix| + |MessageSuffix| <= |InvalidParamMessage(expectedParamName)|
    ensures ExpectedNameOf(InvalidParamMessage(expectedParamName)) == expectedParamName
  {
    var m := InvalidParamMessage(expectedParamName);
    assert m == MessagePrefix + expectedParamName + MessageSuffix;
    assert m[|MessagePrefix|..|m| - |MessageSuffix|] == expectedParamName;
  }

  /** Different expected names give different messages. */
  lemma MessageInjective(a: string, b: string)
    requires InvalidParamMessage(a) == InvalidParamMessage(b)
    ensures a == b
  {
    MessageNamesExpected(a);
    MessageNamesExpected(b);
  }

  // ---------------------------------------------------------------------------
  // One handler
  // ---------------------------------------------------------------------------

  /** A property whose value is not function-like reports nothing. */
  lemma NonFunctionHandlerIsSilent(options: seq<RuleOptions>, value: Expr)
    requires !IsFunction(value)
    ensures HandlerDiagnostics(options, value) == []
  {
  }

  /**
   * A handler's diagnostics: first the one for parameter 0 if it is present and
   * not named `EventParamName`, then the one for parameter 1 if it is present
   * and not named `TemplateInstanceParamName`.
   */
  lemma HandlerChecksFirstTwo(options: seq<RuleOptions>, params: seq<Param>)
    ensures HandlerDiagnostics(options, Function(params))
         == (if 0 < |params| && !HasName(params[0], EventParamName(options))
             then [Diagnostic(params[0], InvalidParamMessage(EventParamName(options)))] else [])
          + (if 1 < |params| && !HasName(params[1], TemplateInstanceParamName(options))
             then [Diagnostic(params[1], InvalidParamMessage(TemplateInstanceParamName(options)))] else [])
  {
  }

  /** A handler reports at most two diagnostics. */
  lemma HandlerAtMostTwo(options: seq<RuleOptions>, value: Expr)
    ensures |HandlerDiagnostics(options, value)| <= 2
  {
  }

  /** Parameters at position 2 and beyond are never examined. */
  lemma LaterParamsIgnored(options: seq<RuleOptions>, params: seq<Param>, extra: seq<Param>)
    requires |params| >= 2
    ensures HandlerDiagnostics(options, Function(params + extra)) == HandlerDiagnostics(options, Function(params))
  {
    assert (params + extra)[0] == params[0] && (params + extra)[1] == params[1];
  }

  /**
   * A handler reports nothing exactly when each of its first two parameters is
   * either missing or carries the expected name.
   */
  lemma HandlerCleanIff(options: seq<RuleOptions>, params: seq<Param>)
    ensures HandlerDiagnostics(options, Function(params)) == []
        <==> ((0 < |params| ==> HasName(params[0], EventParamName(options)))
              && (1 < |params| ==> HasName(params[1], TemplateInstanceParamName(options))))
  {
  }

  // ---------------------------------------------------------------------------
  // The options
  // ---------------------------------------------------------------------------

  /** With no options object, the expected names are "event" and "templateInstance". */
  lemma NoOptionsDefaults()
    ensures EventParamName([]) == "event"
    ensures TemplateInstanceParamName([]) == "templateInstance"
  {
  }

  /** An absent key falls back to its default. */
  lemma AbsentKeyDefaults(o: RuleOptions, rest: seq<RuleOptions>)
    ensures o.eventParamName.None? ==> EventParamName([o] + rest) == "event"
    ensures o.templateInstanceParamName.None? ==> TemplateInstanceParamName([o] + rest) == "templateInstance"
  {
  }

  /** Supplying `eventParamName` sets parameter 0's expected name and leaves parameter 1's alone. */
  lemma EventParamNameOverridesOnlyItself(o: RuleOptions, rest: seq<RuleOptions>, name: string)
    ensures EventParamName([o.(eventParamName := Some(name))] + rest) == name
    ensures TemplateInstanceParamName([o.(eventParamName := Some(name))] + rest)
         == TemplateInstanceParamName([o] + rest)
  {
  }

  /** Supplying `templateInstanceParamName` sets parameter 1's expected name and leaves parameter 0's alone. */
  lemma TemplateInstanceParamNameOverridesOnlyItself(o: RuleOptions, rest: seq<RuleOptions>, name: string)
    ensures TemplateInstanceParamName([o.(templateInstanceParamName := Some(name))] + rest) == name
    ensures EventParamName([o.(templateInstanceParamName := Some(name))] + rest) == EventParamName([o] + rest)
  {
  }

  /** Only the first options object is read. */
  lemma OnlyFirstOptionsRead(isTemplateProp: (Expr, string) -> bool, o: RuleOptions,
                             rest: seq<RuleOptions>, node: CallExpression)
    ensures CallDiagnostics(isTemplateProp, [o] + rest, node) == CallDiagnostics(isTemplateProp, [o], node)
  {
    if |node.arguments| > 0 && node.arguments[0].ObjectExpression? {
      SameNamesSameDiagnostics([o] + rest, [o], node.arguments[0].properties);
    }
  }

  /** The options matter only through the two expected names they resolve to. */
  lemma {:induction false} SameNamesSameDiagnostics(options: seq<RuleOptions>, options': seq<RuleOptions>,
                                                    ps: seq<Property>)
    requires EventParamName(options) == EventParamName(options')
    requires TemplateInstanceParamName(options) == TemplateInstanceParamName(options')
    ensures PropertiesDiagnostics(options, ps) == PropertiesDiagnostics(options', ps)
    decreases |ps|
  {
    if |ps| > 0 {
      SameNamesSameDiagnostics(options, options', ps[..|ps| - 1]);
    }
  }

  /** An object with a key other than the two option names is rejected. */
  lemma UnknownKeyRejected(fields: map<string, Json>, key: string)
    requires key in fields && !IsOptionKey(key)
    ensures ParseOptions(JObject(fields)) == None
  {
  }

  /** An option holding anything but a string is rejected. */
  lemma NonStringOptionRejected(fields: map<string, Json>, key: string)
    requires key in fields && !fields[key].JString?
    ensures ParseOptions(JObject(fields)) == None
  {
  }

  /** Reading the object that spells out some options gives back those options. */
  lemma ParseOptionsToJson(o: RuleOptions)
    ensures ParseOptions(OptionsToJson(o)) == Some(o)
  {
  }

  /** An accepted options object is exactly the one that spells out what was read from it. */
  lemma OptionsToJsonParse(raw: Json)
    requires Schema(raw)
    ensures ParseOptions(raw).Some? && OptionsToJson(ParseOptions(raw).value) == raw
  {
    var back := OptionsToJson(ParseOptions(raw).value);
    forall key | key in raw.fields
      ensures key in back.fields && back.fields[key] == raw.fields[key]
    {
      assert IsOptionKey(key);
    }
    assert back.fields.Keys == raw.fields.Keys;
  }

  // ---------------------------------------------------------------------------
  // A whole event map
  // ---------------------------------------------------------------------------

  /** The diagnostics of two runs of properties are the first run's followed by the second's. */
  lemma {:induction false} PropertiesAppend(options: seq<RuleOptions>, ps: seq<Property>, qs: seq<Property>)
    ensures PropertiesDiagnostics(options, ps + qs)
         == PropertiesDiagnostics(options, ps) + PropertiesDiagnostics(options, qs)
    decreases |qs|
  {
    if |qs| == 0 {
      assert ps + qs == ps;
    } else {
      var qs' := qs[..|qs| - 1];
      assert (ps + qs)[..|ps + qs| - 1] == ps + qs';
      assert (ps + qs)[|ps + qs| - 1] == qs[|qs| - 1];
      PropertiesAppend(options, ps, qs');
    }
  }

  /**
   * Diagnostics appear in property source order: those of property `i` come
   * after those of every earlier property and before those of every later one.
   */
  lemma PropertySourceOrder(options: seq<RuleOptions>, ps: seq<Property>, i: nat)
    requires i < |ps|
    ensures PropertiesDiagnostics(options, ps)
         == PropertiesDiagnostics(options, ps[..i])
          + PropertyDiagnostics(options, ps[i])
          + PropertiesDiagnostics(options, ps[i + 1..])
  {
    assert ps == ps[..i] + [ps[i]] + ps[i + 1..];
    PropertiesAppend(options, ps[..i] + [ps[i]], ps[i + 1..]);
    PropertiesAppend(options, ps[..i], [ps[i]]);
    assert PropertiesDiagnostics(options, [ps[i]]) == PropertyDiagnostics(options, ps[i]) by {
      assert [ps[i]][..0] == [];
    }
  }

  /** An event map with `n` properties reports at most `2 * n` diagnostics. */
  lemma {:induction false} PropertiesAtMostTwoEach(options: seq<RuleOptions>, ps: seq<Property>)
    ensures |PropertiesDiagnostics(options, ps)| <= 2 * |ps|
    decreases |ps|
  {
    if |ps| > 0 {
      PropertiesAtMostTwoEach(options, ps[..|ps| - 1]);
      if ps[|ps| - 1].Property? {
        HandlerAtMostTwo(options, ps[|ps| - 1].value);
      }
    }
  }

  /** A diagnostic of an event map is exactly a diagnostic of one of its properties. */
  lemma {:induction false} PropertiesDiagnosticOrigin(options: seq<RuleOptions>, ps: seq<Property>, d: Diagnostic)
    ensures d in PropertiesDiagnostics(options, ps)
        <==> exists i :: 0 <= i < |ps| && d in PropertyDiagnostics(options, ps[i])
    decreases |ps|
  {
    if |ps| > 0 {
      var init := ps[..|ps| - 1];
      PropertiesDiagnosticOrigin(options, init, d);
      if d in PropertiesDiagnostics(options, ps) {
        if d !in PropertyDiagnostics(options, ps[|ps| - 1]) {
          var i :| 0 <= i < |init| && d in PropertyDiagnostics(options, init[i]);
          assert ps[i] == init[i];
        }
      } else {
        forall i | 0 <= i < |ps|
          ensures d !in PropertyDiagnostics(options, ps[i])
        {
          if i < |init| {
            assert ps[i] == init[i];
          }
        }
      }
    }
  }

  /** An event map reports nothing exactly when each of its properties reports nothing. */
  lemma {:induction false} PropertiesCleanIff(options: seq<RuleOptions>, ps: seq<Property>)
    ensures PropertiesDiagnostics(options, ps) == []
        <==> forall i :: 0 <= i < |ps| ==> PropertyDiagnostics(options, ps[i]) == []
    decreases |ps|
  {
    if |ps| > 0 {
      var init := ps[..|ps| - 1];
      PropertiesCleanIff(options, init);
      assert forall i :: 0 <= i < |init| ==> ps[i] == init[i];
    }
  }

  /**
   * `d` reports parameter 0 or 1 of the function-like value of `property`,
   * that parameter is not named as expected for its position, and the message
   * names the expected name.
   */
  predicate MisnamedParamOf(options: seq<RuleOptions>, property: Property, d: Diagnostic) {
    && property.Property?
    && property.value.Function?
    && var params := property.value.params;
    || (&& 0 < |params| && d.node == params[0]
        && !HasName(d.node, EventParamName(options))
        && d.message == InvalidParamMessage(EventParamName(options)))
    || (&& 1 < |params| && d.node == params[1]
        && !HasName(d.node, TemplateInstanceParamName(options))
        && d.message == InvalidParamMessage(TemplateInstanceParamName(options)))
  }

  /**
   * Every diagnostic of an `events` call sits at parameter 0 or 1 of a
   * function-like property value, that parameter is not named as expected for
   * its position, and the message names the expected name.
   */
  lemma CallDiagnosticIsMisnamedParam(isTemplateProp: (Expr, string) -> bool, options: seq<RuleOptions>,
                                      node: CallExpression, d: Diagnostic)
    requires d in CallDiagnostics(isTemplateProp, options, node)
    ensures |node.arguments| > 0 && isTemplateProp(node.callee, "events") && node.arguments[0].ObjectExpression?
    ensures exists i :: (0 <= i < |node.arguments[0].properties| &&
              MisnamedParamOf(options, node.arguments[0].properties[i], d))
  {
    var ps := node.arguments[0].properties;
    PropertiesDiagnosticOrigin(options, ps, d);
    var i :| 0 <= i < |ps| && d in PropertyDiagnostics(options, ps[i]);
    assert ps[i].Property? && ps[i].value.Function?;
    HandlerChecksFirstTwo(options, ps[i].value.params);
    assert MisnamedParamOf(options, ps[i], d);
  }

  /**
   * Conversely, every present parameter 0 or 1 of a function-like property
   * value in an `events` call's object literal that is not named as expected
   * is reported, at that parameter, with the message naming the expected name.
   */
  lemma MisnamedParamIsReported(isTemplateProp: (Expr, string) -> bool, options: seq<RuleOptions>,
                                node: CallExpression, i: nat)
    requires |node.arguments| > 0 && isTemplateProp(node.callee, "events") && node.arguments[0].ObjectExpression?
    requires i < |node.arguments[0].properties|
    requires node.arguments[0].properties[i].Property? && node.arguments[0].properties[i].value.Function?
    ensures var params := node.arguments[0].properties[i].value.params;
      && (0 < |params| && !HasName(params[0], EventParamName(options)) ==>
            Diagnostic(params[0], InvalidParamMessage(EventParamName(options)))
              in CallDiagnostics(isTemplateProp, options, node))
      && (1 < |params| && !HasName(params[1], TemplateInstanceParamName(options)) ==>
            Diagnostic(params[1], InvalidParamMessage(TemplateInstanceParamName(options)))
              in CallDiagnostics(isTemplateProp, options, node))
  {
    var ps := node.arguments[0].properties;
    PropertySourceOrder(options, ps, i);
    HandlerChecksFirstTwo(options, ps[i].value.params);
  }

  // ---------------------------------------------------------------------------
  // Spread entries
  // ---------------------------------------------------------------------------

  /** A spread entry `...shared` in an event map reports nothing and leaves the other entries' diagnostics as they were. */
  lemma SpreadEntrySkipped(options: seq<RuleOptions>, ps: seq<Property>, argument: Expr, qs: seq<Property>)
    ensures PropertiesDiagnostics(options, ps + [SpreadElement(argument)] + qs)
         == PropertiesDiagnostics(options, ps + qs)
  {
    PropertiesAppend(options, ps + [SpreadElement(argument)], qs);
    PropertiesAppend(options, ps, [SpreadElement(argument)]);
    PropertiesAppend(options, ps, qs);
    assert [SpreadElement(argument)][..0] == [];
  }

  /**
   * As written, the walk over the event map throws exactly when the map has a
   * spread entry; without one it reports what `PropertiesDiagnostics` says.
   */
  lemma {:induction false} AsWrittenThrowsOnSpread(options: seq<RuleOptions>, ps: seq<Property>)
    ensures PropertiesOutcomeAsWritten(options, ps).None? <==> exists i :: 0 <= i < |ps| && ps[i].SpreadElement?
    ensures PropertiesOutcomeAsWritten(options, ps).Some? ==>
              PropertiesOutcomeAsWritten(options, ps).value == PropertiesDiagnostics(options, ps)
    decreases |ps|
  {
    if |ps| > 0 {
      var init := ps[..|ps| - 1];
      AsWrittenThrowsOnSpread(options, init);
      assert forall i :: 0 <= i < |init| ==> ps[i] == init[i];
    }
  }

  /** `Template.x.events({ ...shared, "click": function (e) {} })` throws as written; the corrected rule reports `e`. */
  lemma SpreadEventMapExample(options: seq<RuleOptions>)
    requires options == []
    ensures var ps := [SpreadElement(Other("Identifier")), Property("click", Function([Named("e")]))];
      && PropertiesOutcomeAsWritten(options, ps) == None
      && PropertiesDiagnostics(options, ps) == [Diagnostic(Named("e"), InvalidParamMessage("event"))]
  {
    var ps := [SpreadElement(Other("Identifier")), Property("click", Function([Named("e")]))];
    assert ps[..1] == [SpreadElement(Other("Identifier"))];
    assert ps[..1][..0] == [];
    assert !HasName(Named("e"), "event");
  }

  // ---------------------------------------------------------------------------
  // Examples
  // ---------------------------------------------------------------------------

  /**
   * With `{ eventParamName: "e", templateInstanceParamName: "tmpl" }`, the
   * handler `function (event, templateInstance)` is reported twice and
   * `function (e, tmpl)` not at all.
   */
  lemma CustomNamesExample(isTemplateProp: (Expr, string) -> bool, callee: Expr)
    requires isTemplateProp(callee, "events")
    ensures var options := [RuleOptions(Some("e"), Some("tmpl"))];
      && CallDiagnostics(isTemplateProp, options, CallExpression(callee,
           [ObjectExpression([Property("click", Function([Named("event"), Named("templateInstance")]))])]))
         == [Diagnostic(Named("event"), "Invalid parameter name, use \"e\" instead"),
             Diagnostic(Named("templateInstance"), "Invalid parameter name, use \"tmpl\" instead")]
      && CallDiagnostics(isTemplateProp, options, CallExpression(callee,
           [ObjectExpression([Property("click", Function([Named("e"), Named("tmpl")]))])]))
         == []
  {
    var options := [RuleOptions(Some("e"), Some("tmpl"))];
    var ps := [Property("click", Function([Named("event"), Named("templateInstance")]))];
    assert ps[..0] == [];
    var qs := [Property("click", Function([Named("e"), Named("tmpl")]))];
    assert qs[..0] == [];
    assert !HasName(Named("event"), "e");
    assert !HasName(Named("templateInstance"), "tmpl");
    assert InvalidParamMessage("e") == "Invalid parameter name, use \"e\" instead";
    assert InvalidParamMessage("tmpl") == "Invalid parameter name, use \"tmpl\" instead";
  }
}
