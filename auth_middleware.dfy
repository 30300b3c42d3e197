/**
 * The `protect` session gate. It reads only the `Authorization` header, takes the second
 * space-separated field of a header starting with "Bearer" (section 2.1 of RFC 6750, loosely),
 * hands it to the JSON Web Token verifier (RFC 7519, kept abstract as `verify`), and either
 * attaches the looked-up user and calls `next` or answers 401.
 */
module AuthMiddleware {
  import opened Wrappers
  import opened Strings
  import opened Http
  import opened UserModel

  const TokenFailed: Reply<()> := Reply(401, Message("Not authorized, token failed"))
  const NoToken: Reply<()> := Reply(401, Message("Not authorized, no token"))

  /** The request and response objects one call of `protect` works on. */
  class Exchange {
    /** `req.user`: `None` while never assigned, `Some(None)` once assigned a null lookup result. */
    var reqUser: Option<Option<SessionUser>>
    /** Every `res.status(..).json(..)` attempted, in order. */
    var replies: seq<Reply<()>>
    /** How many times `next()` was called. */
    var nextCalls: nat

    constructor ()
      ensures reqUser == None && replies == [] && nextCalls == 0
    {
      reqUser := None;
      replies := [];
      nextCalls := 0;
    }
  }

  predicate IsBearer(authorization: Option<string>) {
    authorization.Some? && StartsWith(authorization.value, "Bearer")
  }

  /**
   * `authorization.split(" ")[1].trim()`: `None` when there is no second field, where
   * `trim` is called on `undefined` and throws.
   */
  function BearerToken(header: string): (r: Option<string>)
    ensures r.None? <==> ' ' !in header
    ensures r.Some? ==> IsTrimmed(r.value)
  {
    var fields := Split(header, ' ');
    if |fields| < 2 then
      assert ' ' !in header by { JoinSplit(header, ' '); }
      None
    else
      assert ' ' in header by {
        JoinSplit(header, ' ');
        assert header == fields[0] + [' '] + Join(fields[1..], [' ']);
        assert header[|fields[0]|] == ' ';
      }
      Some(Trim(fields[1]))
  }

  /** The user `findById(id).select("-password")` resolves to: `None` stands for null. */
  function Lookup(users: map<Id, User>, id: Id): Option<SessionUser> {
    if id in users then Some(WithoutPassword(id, users[id])) else None
  }

  /**
   * The `protect` middleware. `verify` stands for `jwt.verify` with the server secret; that
   * library refuses an empty token, so a `verify` that accepts "" describes no real run.
   */
  method Protect(ex: Exchange, authorization: Option<string>, verify: string -> Option<Id>, users: map<Id, User>)
    modifies ex
    // Not a Bearer header: one 401, nothing attached, `next` not called.
    ensures !IsBearer(authorization) ==>
      ex.replies == old(ex.replies) + [NoToken] && ex.reqUser == old(ex.reqUser) && ex.nextCalls == old(ex.nextCalls)
    // "Bearer" with no second field: the parse throws, then the token is still unset: two 401s.
    ensures IsBearer(authorization) && BearerToken(authorization.value).None? ==>
      ex.replies == old(ex.replies) + [TokenFailed, NoToken]
      && ex.reqUser == old(ex.reqUser) && ex.nextCalls == old(ex.nextCalls)
    // A token the verifier refuses: 401, plus the second 401 when the token is empty.
    ensures IsBearer(authorization) && BearerToken(authorization.value).Some? ==>
      var token := BearerToken(authorization.value).value;
      var extra := if token == "" then [NoToken] else [];
      && (verify(token).None? ==>
            ex.replies == old(ex.replies) + [TokenFailed] + extra
            && ex.reqUser == old(ex.reqUser) && ex.nextCalls == old(ex.nextCalls))
      && (verify(token).Some? ==>
            ex.replies == old(ex.replies) + extra
            && ex.reqUser == Some(Lookup(users, verify(token).value))
            && ex.nextCalls == old(ex.nextCalls) + 1)
    // `next` is called at most once, and only with `req.user` assigned.
    ensures ex.nextCalls <= old(ex.nextCalls) + 1
    ensures ex.nextCalls != old(ex.nextCalls) ==> ex.reqUser.Some?
    // With a non-empty token, exactly one of "answer 401" and "call next" happens.
    ensures IsBearer(authorization) && BearerToken(authorization.value).Some? && BearerToken(authorization.value).value != "" ==>
      (|ex.replies| == |old(ex.replies)| + 1) != (ex.nextCalls == old(ex.nextCalls) + 1)
  {
    var token: Option<string> := None;
    if IsBearer(authorization) {
      var parsed := BearerToken(authorization.value);
      if parsed.None? {
        ex.replies := ex.replies + [TokenFailed];
      } else {
        token := parsed;
        var decoded := verify(token.value);
        if decoded.None? {
          ex.replies := ex.replies + [TokenFailed];
        } else {
          ex.reqUser := Some(Lookup(users, decoded.value));
          ex.nextCalls := ex.nextCalls + 1;
        }
      }
    }
    if token.None? || token.value == "" {
      ex.replies := ex.replies + [NoToken];
    }
  }

  /**
   * The token is the second space-separated field, trimmed, whatever follows it: "Bearer  abc"
   * yields "" and "Bearer abc x" yields "abc".
   */
  lemma {:induction false} BearerTokenIsSecondField(a: string, t: string, rest: string)
    requires ' ' !in a && ' ' !in t
    requires rest == [] || rest[0] == ' '
    ensures BearerToken(a + [' '] + t + rest) == Some(Trim(t))
  {
    assert a + [' '] + t + rest == a + [' '] + (t + rest);
    SplitAtSeparator(a, t + rest, ' ');
    if rest == [] {
      assert t + rest == t;
      SplitNoSeparator(t, ' ');
    } else {
      assert t + rest == t + [' '] + rest[1..];
      SplitAtSeparator(t, rest[1..], ' ');
    }
  }

  /** A header "Bearer <t>" whose token has no space yields exactly `t`, trimmed. */
  lemma {:induction false} BearerTokenOf(t: string)
    requires ' ' !in t
    ensures BearerToken("Bearer " + t) == Some(Trim(t))
  {
    assert "Bearer " + t == "Bearer" + [' '] + t + [];
    BearerTokenIsSecondField("Bearer", t, []);
  }

  /** A bare "Bearer" header has no token field. */
  lemma BareBearerHasNoToken()
    ensures IsBearer(Some("Bearer")) && BearerToken("Bearer").None?
  {
    assert ' ' !in "Bearer";
  }

  /** An issued token that the verifier maps back to a stored user resolves to that user without its password. */
  lemma {:induction false} IssuedTokenResolves(t: string, verify: string -> Option<Id>, users: map<Id, User>, id: Id)
    requires ' ' !in t && IsTrimmed(t) && t != ""
    requires verify(t) == Some(id) && id in users
    ensures BearerToken("Bearer " + t) == Some(t)
    ensures Lookup(users, verify(t).value) == Some(WithoutPassword(id, users[id]))
  {
    BearerTokenOf(t);
    TrimOfTrimmed(t);
  }
}
