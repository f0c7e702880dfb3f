/** The defensive unwrapping the list pages apply to a response body
    (src/pages/Suppliers.tsx, src/pages/Inventory.tsx): the server may send
    the list bare or inside an envelope whose `data` holds it. */
module ListResponses {
  import opened Common

  /** The shapes a response body can take, as far as the unwrapping can
      tell them apart: nothing at all (`null`, `undefined`), a bare array,
      an object with a `data` key (whose value may be missing), or any
      other value (a number, a string, an object without `data`). */
  datatype Body<T> = Absent | Bare(items: seq<T>) | Envelope(data: Option<seq<T>>) | Other

  /** Whether the body carries a list at all. */
  predicate Carries<T>(b: Body<T>) {
    b.Bare? || (b.Envelope? && b.data.Some?)
  }

  /** The list a body carries; only meaningful when `Carries(b)`. */
  function Carried<T>(b: Body<T>): seq<T>
    requires Carries(b)
  {
    if b.Bare? then b.items else b.data.value
  }

  /** `'data' in body ? body.data || [] : Array.isArray(body) ? body : []`:
      a list the body carries comes out unchanged, and every other body
      gives the empty list. */
  function Unwrap<T>(b: Body<T>): (r: seq<T>)
    ensures Carries(b) ==> r == Carried(b)
    ensures !Carries(b) ==> r == []
  {
    match b
    case Envelope(data) => OrEmpty(data)
    case Bare(items) => items
    case _ => []
  }

  /** `value || []` for a list that may be missing (an empty array is
      truthy, so it stays as it is). */
  function OrEmpty<T>(v: Option<seq<T>>): (r: seq<T>)
    ensures v.Some? ==> r == v.value
    ensures v.None? ==> r == []
  {
    if v.Some? then v.value else []
  }

  /** Whichever of the two shapes the server chooses, the page shows the
      same list. */
  lemma ShapeIrrelevant<T>(xs: seq<T>)
    ensures Unwrap(Bare(xs)) == Unwrap(Envelope(Some(xs))) == xs
  {
  }

  /** A non-empty result always comes from a list in the body. */
  lemma NonEmptyWasCarried<T>(b: Body<T>)
    requires Unwrap(b) != []
    ensures Carries(b) && Carried(b) == Unwrap(b)
  {
  }
}
