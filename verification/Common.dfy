/** What the modelled services share: result shapes, sessions and the white space of text. */
module Common {

  /** A nullable C# or TypeScript value. */
  datatype Option<+T> = None | Some(value: T)

  /** C#'s `a ?? b`. */
  function OrElse<T>(a: Option<T>, b: Option<T>): Option<T> { if a.Some? then a else b }

  /** The exceptions the services throw, named after their HTTP meaning. */
  datatype Error =
    BadRequest | Forbidden | NotFound | InvalidTransition | Unconfigured | Ambiguous | DivideByZero | ConstraintViolated

  /** What a service call returns when it may throw. */
  datatype Result<+T> = Ok(value: T) | Err(error: Error)

  datatype Role = SuperAdmin | Admin | ItManager | TeamLead | Engineer | Executive

  predicate IsLead(role: Role) { role == SuperAdmin || role == Admin || role == ItManager || role == TeamLead }

  datatype Session = Session(tenantId: nat, userId: nat, role: Role)

  /** .NET's `char.IsWhiteSpace`. */
  predicate IsWhite(c: char) {
    var n := c as int;
    0x09 <= n <= 0x0D || n == 0x20 || n == 0x85 || n == 0xA0 || n == 0x1680 || 0x2000 <= n <= 0x200A
    || n == 0x2028 || n == 0x2029 || n == 0x202F || n == 0x205F || n == 0x3000
  }

  predicate AllWhite(s: string) {
    forall i :: 0 <= i < |s| ==> IsWhite(s[i])
  }

  lemma AppendAssociates<T>(a: seq<T>, b: seq<T>, c: seq<T>)
    ensures (a + b) + c == a + (b + c)
  {
  }
}
