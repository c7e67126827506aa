/**
  Session tokens (internal/auth/token.go). The text form and HMAC-SHA256 are
  abstract: equal signatures mean equal secrets and equal claims. Instants are
  nanoseconds; the claims hold whole seconds, as Unix time does.
 */
module Tokens {
  type Id = nat
  const NIL: Id := 0
  const SECOND: int := 1_000_000_000

  datatype Session = Session(user: Id, device: Id, epoch: int)

  datatype Claims = Claims(sub: Id, exp: int, iat: int, ver: int, did: Id, iss: string, aud: string)

  datatype Signature = Hmac(secret: string, claims: Claims)

  datatype Token = Jwt(claims: Claims, signature: Signature) | Malformed

  datatype Signer = Signer(secret: string, ttl: int, issuer: string)

  datatype Option<T> = None | Some(value: T)

  function NewSigner(secret: string, ttl: int, issuer: string): Option<Signer> {
    if |secret| < 32 || ttl <= 0 || issuer == "" then None else Some(Signer(secret, ttl, issuer))
  }

  function Unix(instant: int): int { instant / SECOND }

  function Issue(s: Signer, sess: Session, now: int): Option<Token> {
    if sess.user == NIL || sess.device == NIL then None
    else
      var claims := Claims(sess.user, Unix(now + s.ttl), Unix(now), sess.epoch, sess.device, s.issuer, s.issuer);
      Some(Jwt(claims, Hmac(s.secret, claims)))
  }

  function Parse(s: Signer, t: Token, now: int): Option<Session> {
    if t.Malformed? || t.signature != Hmac(s.secret, t.claims) then None
    else if t.claims.exp <= Unix(now) then None
    else if t.claims.iss != s.issuer || t.claims.aud != s.issuer then None
    else if t.claims.sub == NIL || t.claims.did == NIL then None
    else Some(Session(t.claims.sub, t.claims.did, t.claims.ver))
  }

  // A token is worth its session from its issue until the last whole second of its
  // lifetime begins to count as over, and nothing to any other installation.
  lemma {:induction false} ParseIssued(s: Signer, other: Signer, sess: Session, now: int, later: int)
    requires Issue(s, sess, now).Some?
    ensures var t := Issue(s, sess, now).value;
            Parse(other, t, later)
            == if other.secret == s.secret && other.issuer == s.issuer && Unix(later) < Unix(now + s.ttl)
                then Some(sess) else None
  {
  }

  // Rounding to seconds never lets a token outlive its time, and takes less than
  // a second from it.
  lemma {:induction false} LifetimeWithinASecond(s: Signer, now: int, later: int)
    ensures Unix(later) < Unix(now + s.ttl) ==> later < now + s.ttl
    ensures later <= now + s.ttl - SECOND ==> Unix(later) < Unix(now + s.ttl)
  {
  }

  // A signer is made for any positive lifetime. Its tokens are good at the moment
  // they are issued, whenever that is, exactly when the lifetime is a second or
  // more: a shorter one can begin and end within the same second.
  lemma {:induction false} GoodAtOnceIff(secret: string, ttl: int, issuer: string, sess: Session)
    requires NewSigner(secret, ttl, issuer).Some? && sess.user != NIL && sess.device != NIL
    ensures var s := NewSigner(secret, ttl, issuer).value;
            (forall now: int :: Parse(s, Issue(s, sess, now).value, now) == Some(sess)) <==> ttl >= SECOND
  {
    var s := NewSigner(secret, ttl, issuer).value;
    if ttl >= SECOND {
      forall now: int ensures Parse(s, Issue(s, sess, now).value, now) == Some(sess) {
        LifetimeWithinASecond(s, now, now);
      }
    } else {
      assert Parse(s, Issue(s, sess, 0).value, 0) == None;
    }
  }
}
