/** Small vocabulary shared by every module of the model: optional values,
    the reply of a remote store write, and the string tests that the
    TypeScript code gets from `String.prototype`. */
module Common {

  /** A value that may be absent: SQL `null`, a missing row, an unset variable. */
  datatype Option<+T> = None | Some(value: T)

  /** What the database answers to a write (`insert`, `update`, `upsert`):
      either it was applied, or it failed with the store's own message. */
  datatype StoreReply = Done | StoreError(message: string)

  predicate IsDigit(c: char) {
    '0' <= c <= '9'
  }

  /** `s.startsWith(prefix)`. */
  predicate StartsWith(s: string, prefix: string) {
    |prefix| <= |s| && s[..|prefix|] == prefix
  }

  /** JavaScript truthiness of an optional string: present and non-empty. */
  predicate Truthy(s: Option<string>) {
    s.Some? && s.value != ""
  }

  /** `a || b` on two strings. */
  function OrElse(a: string, b: string): (r: string)
    ensures a != "" ==> r == a
    ensures a == "" ==> r == b
  {
    if a != "" then a else b
  }
}
