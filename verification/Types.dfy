/** The data that travels between replicas: identities, relations and operations. */
module Types {
  const MAX_U32: int := 0xFFFF_FFFF
  type u32 = n: int | 0 <= n <= 0xFFFF_FFFF

  datatype Option<+T> = None | Some(value: T)

  datatype Error = OutOfBounds | Generic

  datatype Result<+T> = Ok(value: T) | Err(error: Error)

  /** A character's identity: unique as a pair, never reused. */
  datatype Ident = Ident(id: u32, peer: u32)

  /** The sentinel that every document starts with. */
  const ROOT: Ident := Ident(0, 0)
  const ROOT_RELATION: Relation := Relation('\0', ROOT, false)

  datatype Relation = Relation(value: char, parent: Ident, deleted: bool)

  datatype Crdt = Crdt(who: Ident, relation: Relation)

  type Chars = map<Ident, Relation>

  /** Characters that start a projection row instead of occupying a column in one. */
  predicate IsLineBreak(c: char) {
    c == '\n' || c == '\r' || c == '\U{0B}' || c == '\U{0C}' || c == '\U{85}' ||
    c == '\U{2028}' || c == '\U{2029}'
  }

  /** The sibling tie-break: larger id first, then smaller peer. */
  predicate Outranks(a: Ident, b: Ident) {
    a.id > b.id || (a.id == b.id && a.peer < b.peer)
  }

  predicate Live(chars: Chars, x: Ident) {
    x in chars && !chars[x].deleted
  }

  predicate Breaks(chars: Chars, x: Ident) {
    x in chars && IsLineBreak(chars[x].value)
  }
}
