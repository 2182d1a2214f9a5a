/** The data the catalog view holds: media items as they arrive from the
    media API, and the drafts the seeding routine posts. */
module Media {

  datatype Option<+T> = None | Some(value: T)

  /** The value a component sees in a numeric JSON field such as `downloads`:
      absent (`undefined`), `null`, an integer, or the `NaN` that JavaScript
      arithmetic produces from `undefined + 1`. */
  datatype Count = Undefined | Null | Num(n: int) | NaN

  /** Whether `??` falls back to its right operand. */
  predicate IsNullish(c: Count) {
    c.Undefined? || c.Null?
  }

  /** JavaScript's `a ?? b`. */
  function Coalesce(a: Count, b: Count): Count {
    if IsNullish(a) then b else a
  }

  /** JavaScript's `c + 1` on the values a `downloads` field can hold. */
  function PlusOne(c: Count): (r: Count)
    ensures !IsNullish(r)
    ensures r.Num? <==> c.Num? || c.Null?
    ensures c.Num? ==> r.n == c.n + 1
    ensures c.Null? ==> r == Num(1)
  {
    match c
    case Undefined => NaN
    case Null => Num(1)
    case Num(n) => Num(n + 1)
    case NaN => NaN
  }

  /** One catalog entry. `title` and `kind` may be missing from the server's
      object; `year` stands for the fields that are only displayed. */
  datatype MediaItem = MediaItem(
    id: string,
    title: Option<string>,
    kind: Option<string>,
    year: Option<int>,
    downloads: Count)

  /** The body of one create request of the seeding routine. */
  datatype Draft = Draft(title: string, kind: string, year: int)
}
