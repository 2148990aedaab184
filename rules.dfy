/**
 * The pure rules of the cache manager: access-token validity, the home-account-id and
 * local-account-id precedence, the authority type, and the "last one of a type wins"
 * selection the read path applies to what storage returns.
 */
module CacheRules {
  import opened Wrappers
  import opened Text
  import opened Schema

  /** Seconds of clock-skew allowance before an access token's expiry. */
  const ExpiryBufferSeconds: int := 300

  /**
   * An access token is usable at `now` (seconds since the epoch) when it expires more than
   * five minutes later and was not cached in the future.
   */
  function IsAccessTokenValid(accessToken: Credential, now: int): (r: bool)
    ensures r <==> accessToken.cachedAt <= now < accessToken.expiresOn - ExpiryBufferSeconds
    ensures accessToken.expiresOn == now + ExpiryBufferSeconds ==> !r
  {
    if accessToken.expiresOn <= now + 300 then false
    else if accessToken.cachedAt > now then false
    else true
  }

  /** The set of instants at which a token is valid has no holes. */
  lemma ValidityIsAnInterval(accessToken: Credential, early: int, now: int, late: int)
    requires early <= now <= late
    requires IsAccessTokenValid(accessToken, early) && IsAccessTokenValid(accessToken, late)
    ensures IsAccessTokenValid(accessToken, now)
  {
  }

  /**
   * The home account id: "uid.utid" when both are usable, else the UPN claim, else the
   * email claim, else the subject claim whatever it holds.
   */
  function GetHomeAccountId(tokenResponse: TokenResponse): (r: NStr)
    ensures Usable(tokenResponse.uid) && Usable(tokenResponse.utid) ==>
              r == Some(tokenResponse.uid.value + "." + tokenResponse.utid.value)
    ensures !(Usable(tokenResponse.uid) && Usable(tokenResponse.utid)) ==>
              r == (if Usable(tokenResponse.idToken.upn) then tokenResponse.idToken.upn
                    else if Usable(tokenResponse.idToken.email) then tokenResponse.idToken.email
                    else tokenResponse.idToken.subject)
  {
    if Usable(tokenResponse.uid) && Usable(tokenResponse.utid) then
      Some(tokenResponse.uid.value + "." + tokenResponse.utid.value)
    else
      var idToken := tokenResponse.idToken;
      if Usable(idToken.upn) then idToken.upn
      else if Usable(idToken.email) then idToken.email
      else idToken.subject
  }

  /**
   * The derived home account id is unusable exactly when no identity source is usable:
   * the "uid.utid" form always contains a '.', which is not white space.
   */
  lemma HomeAccountIdUnusable(tokenResponse: TokenResponse)
    ensures IsNullOrWhiteSpace(GetHomeAccountId(tokenResponse)) <==>
              && !(Usable(tokenResponse.uid) && Usable(tokenResponse.utid))
              && !Usable(tokenResponse.idToken.upn)
              && !Usable(tokenResponse.idToken.email)
              && !Usable(tokenResponse.idToken.subject)
  {
    if Usable(tokenResponse.uid) && Usable(tokenResponse.utid) {
      var composite := tokenResponse.uid.value + "." + tokenResponse.utid.value;
      assert composite[|tokenResponse.uid.value|] == '.';
      assert !IsWhiteSpace('.');
    }
  }

  /** The local account id: the object-id claim when usable, else the subject claim. */
  function GetLocalAccountId(idToken: IdTokenClaims): (r: NStr)
    ensures Usable(idToken.oid) ==> r == idToken.oid
    ensures !Usable(idToken.oid) ==> r == idToken.subject
    ensures Usable(r) <==> Usable(idToken.oid) || Usable(idToken.subject)
  {
    var localAccountId := idToken.oid;
    if IsNullOrWhiteSpace(localAccountId) then idToken.subject else localAccountId
  }

  /**
   * The authority type of an authority path: Adfs when its second '/'-piece is "adfs".
   * A path without any '/' has one piece only, so it is never Adfs.
   */
  function AuthorityTypeOf(path: string): (r: AuthorityType)
    ensures r == Adfs ==> '/' in path
  {
    var pathSegments := Split(path, '/');
    assert '/' !in path ==> |pathSegments| == 1 by {
      if '/' !in path {
        SplitPrefix(path, "", '/');
        assert path + "" == path;
      }
    }
    if |pathSegments| < 2 then MsSts
    else if EqualsIgnoreCase(pathSegments[1], "adfs") then Adfs
    else MsSts
  }

  /**
   * Every path with a '/' reads `first + "/" + second + rest` with no '/' in the first two
   * pieces and `rest` empty or starting at the next '/'; the type is decided by `second` alone.
   */
  lemma {:induction false} AuthorityTypeBySecondSegment(first: string, second: string, rest: string)
    requires '/' !in first && '/' !in second
    requires rest == "" || rest[0] == '/'
    ensures AuthorityTypeOf(first + "/" + second + rest) == if EqualsIgnoreCase(second, "adfs") then Adfs else MsSts
  {
    var path := first + "/" + second + rest;
    assert path == first + ("/" + (second + rest));
    SplitPrefix(first, "/" + (second + rest), '/');
    assert "/" + (second + rest) == ['/'] + (second + rest);
    SplitAtDelimiter(second + rest, '/');
    SplitPrefix(second, rest, '/');
    if rest == "" {
      assert Split(rest, '/')[0] == "";
    } else {
      assert rest == ['/'] + rest[1..];
      SplitAtDelimiter(rest[1..], '/');
    }
    assert Split(second + rest, '/')[0] == second;
    assert Split(path, '/')[1] == second;
  }

  /** The last credential of the given type, in iteration order. */
  function LastOfType(s: seq<Credential>, t: CredentialType): (r: Option<Credential>)
    ensures r.Some? ==> r.value.credentialType == t && r.value in s
    ensures r.None? <==> forall i :: 0 <= i < |s| ==> s[i].credentialType != t
  {
    if |s| == 0 then None
    else if s[|s| - 1].credentialType == t then Some(s[|s| - 1])
    else
      var r := LastOfType(s[..|s| - 1], t);
      assert forall i :: 0 <= i < |s| - 1 ==> s[..|s| - 1][i] == s[i];
      r
  }

  /** The credential found stands at a position after which no credential has its type. */
  lemma {:induction false} LastOfTypeIsLast(s: seq<Credential>, t: CredentialType)
    requires LastOfType(s, t).Some?
    ensures exists i :: 0 <= i < |s| && s[i] == LastOfType(s, t).value
                        && forall j :: i < j < |s| ==> s[j].credentialType != t
  {
    var n := |s| - 1;
    if s[n].credentialType == t {
      assert s[n] == LastOfType(s, t).value;
    } else {
      var init := s[..n];
      assert LastOfType(s, t) == LastOfType(init, t);
      LastOfTypeIsLast(init, t);
      var i :| 0 <= i < |init| && init[i] == LastOfType(init, t).value
               && forall j :: i < j < |init| ==> init[j].credentialType != t;
      assert s[i] == init[i];
      forall j | i < j < |s|
        ensures s[j].credentialType != t
      {
        if j < n {
          assert s[j] == init[j];
        }
      }
    }
  }

  lemma LastOfTypeAppend(s: seq<Credential>, c: Credential, t: CredentialType)
    ensures LastOfType(s + [c], t) == if c.credentialType == t then Some(c) else LastOfType(s, t)
  {
    assert (s + [c])[..|s|] == s;
  }

  /**
   * Last one wins across a concatenation: the later part decides whenever it holds a
   * credential of the type; credentials of other types never matter.
   */
  lemma {:induction false} LastOfTypeConcat(a: seq<Credential>, b: seq<Credential>, t: CredentialType)
    ensures LastOfType(a + b, t) == if LastOfType(b, t).Some? then LastOfType(b, t) else LastOfType(a, t)
  {
    if |b| == 0 {
      assert a + b == a;
    } else {
      var init := b[..|b| - 1];
      var last := b[|b| - 1];
      assert b == init + [last];
      assert a + b == (a + init) + [last];
      LastOfTypeAppend(a + init, last, t);
      LastOfTypeAppend(init, last, t);
      LastOfTypeConcat(a, init, t);
    }
  }
}
