/**
  Values that flow between the device-location form and the geo models.

  The form and the models are written in a dynamically typed language: a
  cleaned form field, a Location's `geometry` or a FloorPlan's `floor` can
  hold a string, a number, a geometry, an image or nothing at all, and the
  code tests them with that language's truthiness and merges them with
  `a or b`. This module makes both explicit.
 */
module Values {

  datatype Option<+T> = None | Some(value: T)

  datatype Result<+T, +E> = Ok(value: T) | Err(error: E)

  /** A geometry (point, polygon, ...). Only whether it is empty is observable here. */
  datatype Geometry = Geometry(coordinates: seq<int>) {
    predicate IsEmpty() { coordinates == [] }
  }

  /** A stored or uploaded image file; like a file field, it is empty when it has no name. */
  datatype Image = Image(name: string) {
    predicate IsEmpty() { name == "" }
  }

  /** A dynamically typed value as the form or a model attribute holds it. */
  datatype Value =
    | Null                  // None
    | Text(s: string)       // a character or choice field
    | Int(n: int)           // an integer field (the floor)
    | Geom(g: Geometry)
    | Img(i: Image)
    | Instance(pk: nat)     // a model instance picked in a reference field

  /** Truthiness: None, '', 0, an empty geometry and an empty image are false. */
  predicate Truthy(v: Value) {
    match v
    case Null => false
    case Text(s) => s != ""
    case Int(n) => n != 0
    case Geom(g) => !g.IsEmpty()
    case Img(i) => !i.IsEmpty()
    case Instance(_) => true
  }

  /** The expression `a or b`: the first operand when it is true, the second otherwise. */
  function Or(a: Value, b: Value): (r: Value)
    ensures r == a || r == b
    ensures Truthy(r) <==> Truthy(a) || Truthy(b)
    ensures Truthy(a) ==> r == a
    ensures !Truthy(a) ==> r == b
  {
    if Truthy(a) then a else b
  }

  /** `or` is idempotent: merging the same submitted value twice changes nothing more. */
  lemma OrAbsorbs(a: Value, b: Value)
    ensures Or(a, Or(a, b)) == Or(a, b)
    ensures Or(a, a) == a
  {
  }
}
