/**
 * The authorization middleware's decision chain. Token verification and the
 * user lookup are oracles given as maps: a token absent from `verified` is
 * one that `jwt.verify` rejects, and a decoded id absent from `users` is an
 * unknown user. The header value is the raw Authorization header.
 */
module AuthMiddleware {
  import opened Common

  /** The id and role a verified token carries. */
  datatype Claims = Claims(id: Id, role: string)

  /** Either `next()` with the user attached, or an error response. */
  datatype Outcome<U> = Next(user: U) | Deny(code: nat, msg: string)

  /** JavaScript's `s.split(sep)` for a one-character separator. */
  function Split(s: string, sep: char): (parts: seq<string>)
    ensures |parts| >= 1
    ensures forall i :: 0 <= i < |parts| ==> sep !in parts[i]
    decreases |s|
  {
    if s == [] then [""]
    else
      var rest := Split(s[1..], sep);
      if s[0] == sep then [""] + rest
      else [[s[0]] + rest[0]] + rest[1..]
  }

  /** `parts.join(sep)`, the inverse of Split. */
  function Join(parts: seq<string>, sep: char): string
    requires |parts| >= 1
  {
    if |parts| == 1 then parts[0] else parts[0] + [sep] + Join(parts[1..], sep)
  }

  /** Splitting loses nothing: joining the parts gives the header back. */
  lemma {:induction false} JoinSplit(s: string, sep: char)
    ensures Join(Split(s, sep), sep) == s
    decreases |s|
  {
    if s != [] {
      JoinSplit(s[1..], sep);
      var rest := Split(s[1..], sep);
      if s[0] == sep {
        assert ([""] + rest)[1..] == rest;
      } else {
        var p := [[s[0]] + rest[0]] + rest[1..];
        assert p[1..] == rest[1..];
        if |rest| == 1 {
          assert s == [s[0]] + s[1..];
        } else {
          assert rest == [rest[0]] + rest[1..];
          assert s == [s[0]] + s[1..];
        }
      }
    }
  }

  /** A string without the separator splits into itself alone. */
  lemma {:induction false} SplitNoSep(s: string, sep: char)
    requires sep !in s
    ensures Split(s, sep) == [s]
    decreases |s|
  {
    if s != [] {
      assert sep !in s[1..] by {
        forall c | c in s[1..] ensures c != sep { }
      }
      SplitNoSep(s[1..], sep);
      assert [s[0]] + s[1..] == s;
    }
  }

  /** A separator-free prefix followed by the separator becomes the first part. */
  lemma {:induction false} SplitAfterWord(a: string, sep: char, b: string)
    requires sep !in a
    ensures Split(a + [sep] + b, sep) == [a] + Split(b, sep)
    decreases |a|
  {
    var s := a + [sep] + b;
    if a == [] {
      assert s == [sep] + b && s[1..] == b;
    } else {
      assert s[0] == a[0] && s[1..] == a[1..] + [sep] + b;
      assert sep !in a[1..] by {
        forall c | c in a[1..] ensures c != sep { }
      }
      SplitAfterWord(a[1..], sep, b);
      assert [a[0]] + a[1..] == a;
    }
  }

  /** `header?.split(' ')[1]`, where a missing or empty part is no token. */
  function TokenOf(header: Option<string>): (t: Option<string>)
    ensures t.Some? ==> t.value != "" && ' ' !in t.value
  {
    match header
    case None => None
    case Some(h) =>
      var parts := Split(h, ' ');
      if |parts| >= 2 && parts[1] != "" then Some(parts[1]) else None
  }

  /**
   * A header "<scheme> <token>" yields the token. The scheme word is not
   * checked, so "Bearer" is not required.
   */
  lemma BearerToken(scheme: string, token: string)
    requires ' ' !in scheme && ' ' !in token && token != ""
    ensures TokenOf(Some(scheme + " " + token)) == Some(token)
  {
    SplitAfterWord(scheme, ' ', token);
    SplitNoSep(token, ' ');
    assert scheme + " " + token == scheme + [' '] + token;
  }

  /** A header with no space in it yields no token. */
  lemma NoSpaceNoToken(h: string)
    requires ' ' !in h
    ensures TokenOf(Some(h)) == None
  {
    SplitNoSep(h, ' ');
  }

  /**
   * `authMiddleware(requiredRole)` on one request; "" stands for no required
   * role. The chain is: no token (401), verification fails (401), unknown
   * user (401), wrong role (403), and otherwise next with the user.
   */
  function Authenticate<U>(header: Option<string>, verified: map<string, Claims>, users: map<Id, U>, requiredRole: string)
    : (r: Outcome<U>)
    ensures TokenOf(header).None? ==> r == Deny(401, "No token, authorization denied")
    ensures TokenOf(header).Some? && TokenOf(header).value !in verified ==> r == Deny(401, "Token is not valid")
    ensures TokenOf(header).Some? && TokenOf(header).value in verified ==>
              var c := verified[TokenOf(header).value];
              && (c.id !in users ==> r == Deny(401, "User not found"))
              && (c.id in users && requiredRole != "" && c.role != requiredRole ==>
                    r == Deny(403, "Access denied: incorrect role"))
              && (c.id in users && (requiredRole == "" || c.role == requiredRole) ==> r == Next(users[c.id]))
  {
    match TokenOf(header)
    case None => Deny(401, "No token, authorization denied")
    case Some(token) =>
      if token !in verified then Deny(401, "Token is not valid")
      else
        var c := verified[token];
        if c.id !in users then Deny(401, "User not found")
        else if requiredRole != "" && c.role != requiredRole then Deny(403, "Access denied: incorrect role")
        else Next(users[c.id])
  }

  /** Passing means a verified token of an existing user with an acceptable role. */
  lemma PassIff<U>(header: Option<string>, verified: map<string, Claims>, users: map<Id, U>, requiredRole: string)
    ensures Authenticate(header, verified, users, requiredRole).Next? <==>
            && TokenOf(header).Some? && TokenOf(header).value in verified
            && verified[TokenOf(header).value].id in users
            && (requiredRole == "" || verified[TokenOf(header).value].role == requiredRole)
  {
  }

  /** The role is judged only for existing users: an unknown user is 401 whatever its role. */
  lemma RoleCheckedAfterLookup<U>(header: Option<string>, verified: map<string, Claims>, users: map<Id, U>, requiredRole: string)
    requires Authenticate(header, verified, users, requiredRole).Deny?
    requires Authenticate(header, verified, users, requiredRole).code == 403
    ensures TokenOf(header).Some? && verified[TokenOf(header).value].id in users
  {
  }

  /** Without a required role every verified existing user passes. */
  lemma NoRoleAnyUser<U>(header: Option<string>, verified: map<string, Claims>, users: map<Id, U>)
    requires TokenOf(header).Some? && TokenOf(header).value in verified
    requires verified[TokenOf(header).value].id in users
    ensures Authenticate(header, verified, users, "").Next?
  {
  }
}
