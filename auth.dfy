/** The auth middleware: `protect` reads a bearer token from the Authorization
    header, verifies it and loads its user; `isAdmin` checks the loaded user's role.
    Token verification and the user lookup are parameters. */
module Auth {
  import opened Common

  datatype User = User(id: Id, name: string, email: string, role: string)

  const NotAuthorized: string := "Not authorized to access this route"
  const UserNotFound: string := "User not found"

  // ---------------------------------------------------------------------------
  // String.prototype.split with a one-character separator

  function Split(s: string, sep: char): (r: seq<string>)
    ensures |r| >= 1
    ensures forall i :: 0 <= i < |r| ==> sep !in r[i]
    ensures |r| > 1 <==> sep in s
  {
    if s == [] then [[]]
    else
      var rest := Split(s[1..], sep);
      if s[0] == sep then [[]] + rest else [[s[0]] + rest[0]] + rest[1..]
  }

  /** Joining the pieces with the separator gives back the text. */
  lemma {:induction false} JoinSplit(s: string, sep: char)
    ensures Join(Split(s, sep), [sep]) == s
  {
    if s != [] {
      var rest := Split(s[1..], sep);
      JoinSplit(s[1..], sep);
      if s[0] == sep {
        assert Split(s, sep)[1..] == rest;
      } else {
        var r := Split(s, sep);
        assert r[1..] == rest[1..];
        if |rest| == 1 {
        } else {
          assert Join(rest, [sep]) == rest[0] + [sep] + Join(rest[1..], [sep]);
        }
      }
    }
  }

  /** Splitting pieces that do not contain the separator gives back the pieces. */
  lemma {:induction false} SplitJoin(ps: seq<string>, sep: char)
    requires |ps| >= 1
    requires forall i :: 0 <= i < |ps| ==> sep !in ps[i]
    ensures Split(Join(ps, [sep]), sep) == ps
    decreases |ps|, |ps[0]|, 1
  {
    if ps[0] == [] {
      if |ps| > 1 {
        SplitJoinEmptyHead(ps, sep);
      }
    } else {
      SplitJoinCons(ps, sep);
    }
  }

  lemma {:induction false} SplitJoinEmptyHead(ps: seq<string>, sep: char)
    requires |ps| > 1 && ps[0] == []
    requires forall i :: 0 <= i < |ps| ==> sep !in ps[i]
    ensures Split(Join(ps, [sep]), sep) == ps
    decreases |ps|, |ps[0]|, 0
  {
    SplitJoin(ps[1..], sep);
    JoinEmptyHead(ps, sep);
    SplitAtSeparator(Join(ps[1..], [sep]), sep);
    assert [[]] + ps[1..] == ps;
  }

  lemma JoinEmptyHead(ps: seq<string>, sep: char)
    requires |ps| > 1 && ps[0] == []
    ensures Join(ps, [sep]) == [sep] + Join(ps[1..], [sep])
  {
    assert ps[0] + [sep] == [sep];
  }

  /** A leading separator closes an empty first piece. */
  lemma SplitAtSeparator(tail: string, sep: char)
    ensures Split([sep] + tail, sep) == [[]] + Split(tail, sep)
  {
    assert ([sep] + tail)[1..] == tail;
  }

  lemma {:induction false} SplitJoinCons(ps: seq<string>, sep: char)
    requires |ps| >= 1 && ps[0] != []
    requires forall i :: 0 <= i < |ps| ==> sep !in ps[i]
    ensures Split(Join(ps, [sep]), sep) == ps
    decreases |ps|, |ps[0]|, 0
  {
    var head := ps[0];
    var shorter := [head[1..]] + ps[1..];
    assert forall i :: 1 <= i < |shorter| ==> shorter[i] == ps[i];
    SplitJoin(shorter, sep);
    var rest := Join(shorter, [sep]);
    var whole := Join(ps, [sep]);
    JoinHead(ps, sep);
    assert whole == [head[0]] + rest;
    SplitCons(head[0], rest, sep);
    assert [head[0]] + head[1..] == head;
    assert [head] + ps[1..] == ps;
  }

  /** Joining pieces whose first piece is not empty starts with that piece's first character. */
  lemma JoinHead(ps: seq<string>, sep: char)
    requires |ps| >= 1 && ps[0] != []
    ensures Join(ps, [sep]) == [ps[0][0]] + Join([ps[0][1..]] + ps[1..], [sep])
  {
    var head, shorter := ps[0], [ps[0][1..]] + ps[1..];
    assert shorter[0] == head[1..] && shorter[1..] == ps[1..];
    assert [head[0]] + head[1..] == head;
    if |ps| > 1 {
      var rest := Join(ps[1..], [sep]);
      var tail := [sep] + rest;
      SeqAssoc(head, [sep], rest);
      SeqAssoc(head[1..], [sep], rest);
      SeqAssoc([head[0]], head[1..], tail);
    }
  }

  /** A character other than the separator goes to the first piece. */
  lemma SplitCons(c: char, rest: string, sep: char)
    requires c != sep
    ensures Split([c] + rest, sep) == [[c] + Split(rest, sep)[0]] + Split(rest, sep)[1..]
  {
    assert ([c] + rest)[1..] == rest;
  }

  predicate StartsWith(s: string, prefix: string) {
    |prefix| <= |s| && s[..|prefix|] == prefix
  }

  // ---------------------------------------------------------------------------
  // protect and isAdmin

  /** The token `protect` reads: when the header is present and starts with "Bearer",
      the second piece of `split(' ')`, if there is one. */
  function BearerToken(authorization: Option<string>): (r: Option<string>)
    ensures r.Some? <==> authorization.Some? && StartsWith(authorization.value, "Bearer") && ' ' in authorization.value
    ensures r.Some? ==> ' ' !in r.value
  {
    if authorization.Some? && authorization.value != "" && StartsWith(authorization.value, "Bearer") then
      var pieces := Split(authorization.value, ' ');
      if |pieces| > 1 then Some(pieces[1]) else None
    else None
  }

  /** "Bearer <token>" yields the token, and a bare "Bearer" yields none. */
  lemma BearerTokenOfHeader(token: string)
    requires ' ' !in token
    ensures BearerToken(Some("Bearer " + token)) == Some(token)
    ensures BearerToken(Some("Bearer")) == None
  {
    var ps := ["Bearer", token];
    SplitJoin(ps, ' ');
    assert Join(ps, [' ']) == "Bearer" + [' '] + token;
    assert "Bearer" + [' '] + token == "Bearer " + token;
    assert ("Bearer " + token)[..6] == "Bearer";
    SplitJoin(["Bearer"], ' ');
  }

  /** The token is the second space-separated word of the header: when the first word `p`
      starts with "Bearer" (so "Bearerx" too), the word `t` after the first space is the
      token, whatever follows it after the next space. */
  lemma BearerTokenIsSecondWord(p: string, t: string, rest: string)
    requires StartsWith(p, "Bearer") && ' ' !in p && ' ' !in t
    requires rest == [] || rest[0] == ' '
    ensures BearerToken(Some(p + " " + t + rest)) == Some(t)
  {
    var tail := t + rest;
    var header := p + " " + t + rest;
    assert header == p + ([' '] + tail);
    SplitPrefix(p, [' '] + tail, ' ');
    assert ([' '] + tail)[1..] == tail;
    SplitPrefix(t, rest, ' ');
    assert t + [] == t;
    assert header[..6] == p[..6];
  }

  /** A first piece without the separator is the start of the first piece of the whole. */
  lemma {:induction false} SplitPrefix(p: string, x: string, sep: char)
    requires sep !in p
    ensures Split(p + x, sep) == [p + Split(x, sep)[0]] + Split(x, sep)[1..]
  {
    if p == [] {
      var xs := Split(x, sep);
      assert p + x == x && p + xs[0] == xs[0];
      assert [xs[0]] + xs[1..] == xs;
    } else {
      var xs, shorter := Split(x, sep), p[1..] + x;
      SplitPrefix(p[1..], x, sep);
      var rs := Split(shorter, sep);
      assert rs[0] == p[1..] + xs[0] && rs[1..] == xs[1..];
      assert p + x == [p[0]] + shorter;
      SplitCons(p[0], shorter, sep);
      assert [p[0]] + p[1..] == p;
      SeqAssoc([p[0]], p[1..], xs[0]);
    }
  }

  /** The outcome of `User.findById`: a user, no user, or a thrown error. */
  datatype UserLookup = Found(user: User) | Missing | Failed

  /** `protect`: no token gives 401; a token that does not verify (`verify` returns the
      token's subject id, or None whatever the reason) gives the same 401; a lookup that
      throws is caught and gives that 401 too; no user gives 404; otherwise the request
      carries the user and continues. */
  function Protect(authorization: Option<string>, verify: string -> Option<Id>, findUser: Id -> UserLookup): (r: Result<User>)
    ensures r.Err? ==> r.error == Http(401, NotAuthorized) || r.error == Http(404, UserNotFound)
    ensures r.Ok? <==>
      && Truthy(BearerToken(authorization))
      && verify(BearerToken(authorization).value).Some?
      && findUser(verify(BearerToken(authorization).value).value).Found?
    ensures r.Ok? ==> r.value == findUser(verify(BearerToken(authorization).value).value).user
    ensures r == Err(Http(404, UserNotFound)) <==>
      && Truthy(BearerToken(authorization))
      && verify(BearerToken(authorization).value).Some?
      && findUser(verify(BearerToken(authorization).value).value).Missing?
  {
    var token := BearerToken(authorization);
    if !Truthy(token) then Err(Http(401, NotAuthorized))
    else match verify(token.value)
      case None => Err(Http(401, NotAuthorized))
      case Some(subject) =>
        match findUser(subject)
        case Failed => Err(Http(401, NotAuthorized))
        case Missing => Err(Http(404, UserNotFound))
        case Found(u) => Ok(u)
  }

  /** `isAdmin`: 403 unless the attached user's role is "admin". */
  function IsAdmin(u: User): (r: Result<User>)
    ensures r.Err? <==> u.role != "admin"
    ensures r.Err? ==> r.error == Http(403, NotAuthorized)
    ensures r.Ok? ==> r.value == u
  {
    if u.role != "admin" then Err(Http(403, NotAuthorized)) else Ok(u)
  }

  /** The admin routes run `protect` and then `isAdmin`. */
  function AdminGuard(authorization: Option<string>, verify: string -> Option<Id>, findUser: Id -> UserLookup): Result<User> {
    match Protect(authorization, verify, findUser)
    case Err(e) => Err(e)
    case Ok(u) => IsAdmin(u)
  }

  /** An admin request passes exactly when the token verifies, its user exists and that
      user is an admin; a missing token never passes. */
  lemma AdminGuardPasses(authorization: Option<string>, verify: string -> Option<Id>, findUser: Id -> UserLookup)
    ensures var r := AdminGuard(authorization, verify, findUser);
      var token := BearerToken(authorization);
      r.Ok? <==>
        && Truthy(token)
        && verify(token.value).Some?
        && findUser(verify(token.value).value).Found?
        && findUser(verify(token.value).value).user.role == "admin"
    ensures !Truthy(BearerToken(authorization)) ==> AdminGuard(authorization, verify, findUser) == Err(Http(401, NotAuthorized))
  {
  }
}
