/** JavaScript value semantics the page relies on: optional properties of a
    parsed JSON object, their truthiness, the `||` fallback and how a template
    literal prints them. */
module Js {

  /** A property of a parsed JSON object: present with a value, or absent. */
  datatype Option<+T> = None | Some(value: T)

  /** Truthiness of a string-valued property: present and not the empty string. */
  predicate Truthy(o: Option<string>) {
    o.Some? && o.value != ""
  }

  /** `a || b` on string-valued properties: `a` when it is truthy, otherwise `b`,
      whatever `b` is. */
  function Or(a: Option<string>, b: Option<string>): (r: Option<string>)
    ensures r == a || r == b
    ensures Truthy(r) <==> Truthy(a) || Truthy(b)
    ensures Truthy(a) ==> r == a
    ensures !Truthy(a) ==> r == b
  {
    if Truthy(a) then a else b
  }

  /** How `${o}` prints a string-valued property: an absent one prints as "undefined". */
  function Display(o: Option<string>): (s: string)
    ensures o.Some? ==> s == o.value
    ensures o.None? ==> s == "undefined"
  {
    match o
    case Some(s) => s
    case None => "undefined"
  }
}
