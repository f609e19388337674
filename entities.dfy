/**
 * The records the profile core reads, and the few JavaScript coercions it applies
 * to them: truthiness, `Number(v)` / `new Date(v).getTime()`, `x || 0` and `>`.
 */
module Entities {
  import opened Wrappers

  /** A JSON field as it arrives from the backend; `Undefined` is a missing key. */
  datatype Raw = Undefined | Null | Num(n: int) | Text(s: string)

  /** JavaScript truthiness of a stored field. */
  predicate Truthy(v: Raw) {
    match v
    case Undefined => false
    case Null => false
    case Num(n) => n != 0
    case Text(s) => s != ""
  }

  /**
   * `Number(v)` and `new Date(v).getTime()` share this shape: undefined gives NaN
   * (`None`), null gives 0, a number is kept, and a string goes through `parseText`,
   * which stands for the engine's numeric or calendar-date parser.
   */
  function ToNumber(v: Raw, parseText: string -> Option<int>): Option<int> {
    match v
    case Undefined => None
    case Null => Some(0)
    case Num(n) => Some(n)
    case Text(s) => parseText(s)
  }

  /** `x || 0` on a number: NaN (and 0) become 0. */
  function OrZero(x: Option<int>): int {
    x.GetOr(0)
  }

  /** JavaScript `a > b` on numbers: false as soon as either side is NaN. */
  predicate Greater(a: Option<int>, b: Option<int>) {
    a.Some? && b.Some? && a.value > b.value
  }

  /** An education entry; `schoolName` is `school?.name`. */
  datatype Education = Education(schoolName: Option<string>, endYear: Raw)

  /** A work-experience entry; `companyName` is `company?.name`. */
  datatype Experience = Experience(companyName: Option<string>, endYear: Raw)

  /** Posts and skills are opaque to the profile core beyond their order and count. */
  datatype Post = Post(author: string, content: string)
  datatype Skill = Skill(name: string, endorsedBy: seq<string>)

  /** The session user, as far as the profile header reads it. */
  datatype User = User(
    educations: seq<Education>,
    experiences: seq<Experience>,
    followers: seq<string>,
    following: seq<string>)
}
