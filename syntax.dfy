/**
 * The part of an ESTree syntax tree that the event-map rule reads.
 *
 * Nodes are tagged variants that carry only the fields the rule inspects.
 * Every other node is `Other`.
 */
module Syntax {

  import opened Wrappers

  /**
   * A function parameter. `Named` is a plain identifier; `Unnamed` is any other
   * pattern (destructuring, a default value, a rest element), whose JavaScript
   * `name` property is `undefined`.
   */
  datatype Param = Named(name: string) | Unnamed

  /**
   * One entry of an object literal: a `key: value` property, or a spread entry
   * `...argument` (ESTree's `SpreadElement`, which has no `value`).
   */
  datatype Property = Property(key: string, value: Expr) | SpreadElement(argument: Expr)

  /**
   * An expression node.
   * - `ObjectExpression`: an object literal, its properties in source order.
   * - `Function`: every node whose type tag the `isFunction` helper accepts
   *   (function expressions, named or anonymous, and arrow functions), with its
   *   parameters in source order.
   * - `Other`: every other node, with its type tag.
   */
  datatype Expr =
    | ObjectExpression(properties: seq<Property>)
    | Function(params: seq<Param>)
    | Other(tag: string)

  /** A call `callee(arguments...)`. */
  datatype CallExpression = CallExpression(callee: Expr, arguments: seq<Expr>)

  /**
   * The helper `isFunction(type)`: whether a node is function-like. In this
   * model a node is function-like exactly when it is the `Function` variant.
   */
  predicate IsFunction(e: Expr) {
    e.Function?
  }

  /**
   * `params[i]`: the parameter at position `i`, or `None` (JavaScript's
   * `undefined`) when the function has fewer than `i + 1` parameters.
   */
  function ParamAt(params: seq<Param>, i: nat): (r: Option<Param>)
    ensures r.Some? <==> i < |params|
    ensures r.Some? ==> r.value == params[i]
  {
    if i < |params| then Some(params[i]) else None
  }

  /** `param.name === expected`; an `Unnamed` parameter's name is `undefined` and equals no string. */
  predicate HasName(p: Param, expected: string) {
    p.Named? && p.name == expected
  }
}
