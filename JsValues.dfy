/** The few pieces of JavaScript value semantics the controller relies on:
    an optional request-body field, its truthiness, how a template literal
    renders it, and property access on a constant lookup table. */
module JsValues {

  datatype Option<+T> = None | Some(value: T)

  /** A request-body field: absent (`undefined`) or a string. */
  type Field = Option<string>

  /** `if (x)` on a field: present and not the empty string. */
  predicate Truthy(x: Field) {
    x.Some? && x.value != ""
  }

  /** `${x}` inside a template literal: `undefined` prints as the text "undefined". */
  function Render(x: Field): string {
    match x
    case Some(s) => s
    case None => "undefined"
  }

  /** `table[key]` on a plain object literal: the entry, or `undefined` when the key is not one of its own. */
  function Lookup(table: map<string, string>, key: string): Field {
    if key in table then Some(table[key]) else None
  }
}
