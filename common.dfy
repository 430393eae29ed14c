/** Values shared by the gate, the pages and the layout components: the three role
    names, optional values, ASCII lower-casing and the string tests the source uses
    (`startsWith`, `includes`). */
module Common {

  datatype Option<+T> = None | Some(value: T) {
    function GetOr(default: T): T {
      match this
      case Some(v) => v
      case None => default
    }
  }

  /** The signed-in account (`user` of the auth context): its uid and its email, which may be null. */
  datatype Account = Account(uid: string, email: Option<string>)

  /** What a page reads from the auth context: whether it is still loading, the
      signed-in account if any, and the role string (a null role is any string
      other than the three role names). */
  datatype Session = Session(loading: bool, user: Option<Account>, role: string)

  const UserRole: string := "user"
  const AdminRole: string := "admin"
  const SuperAdminRole: string := "super_admin"

  /** The super_admin role: what the super-admin pages render and query for. */
  predicate IsSuperAdmin(role: string) {
    role == SuperAdminRole
  }

  /** Either of the two privileged roles: what the content library and the admin
      editor render for. */
  predicate IsPrivileged(role: string) {
    role == AdminRole || IsSuperAdmin(role)
  }

  /** `s.startsWith(p)` of JavaScript. */
  predicate StartsWith(s: string, p: string) {
    p <= s
  }

  /** `s.includes(t)` of JavaScript: `t` occurs in `s` at some offset. */
  predicate Contains(s: string, t: string) {
    exists i :: 0 <= i <= |s| - |t| && t <= s[i..]
  }

  predicate IsUpper(c: char) { 'A' <= c <= 'Z' }

  /** `toLowerCase` on one character, ASCII only. */
  function LowerChar(c: char): (r: char)
    ensures IsUpper(c) ==> r as int == c as int + 32
    ensures !IsUpper(c) ==> r == c
    ensures !IsUpper(r)
  {
    if IsUpper(c) then (c as int + 32) as char else c
  }

  /** `toLowerCase` on a string, ASCII only. */
  function Lower(s: string): (r: string)
    ensures |r| == |s|
    ensures forall i :: 0 <= i < |s| ==> r[i] == LowerChar(s[i])
  {
    if s == [] then [] else [LowerChar(s[0])] + Lower(s[1..])
  }

  lemma {:induction false} LowerIdempotent(s: string)
    ensures Lower(Lower(s)) == Lower(s)
  {
    if s != [] {
      LowerIdempotent(s[1..]);
    }
  }
}
