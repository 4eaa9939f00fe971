/** The two grants of `src/oauth/token.ts` on the file-backed state stores. */
module TokenGrants {
  import opened OAuthState
  import opened RefreshRotation

  datatype Failure = InvalidRequest | InvalidGrant | InvalidTarget | AccessDenied

  datatype Response = Granted(refreshToken: string) | Refused(failure: Failure)

  /** What the checks after consumption found: the redirect and PKCE checks, the resource checks, and whether
      the Brain grant still allows the client. */
  datatype Checks = Checks(proofHolds: bool, resourceMatches: bool, allowed: bool)

  class TokenEndpoint {
    const cfg: Config
    const codes: FileStateProvider<Record>
    const tokens: FileStateProvider<Record>

    ghost predicate Valid() {
      codes != tokens && codes.expiry == ExpiryOf && tokens.expiry == ExpiryOf
    }

    constructor (cfg: Config, codes: FileStateProvider<Record>, tokens: FileStateProvider<Record>)
      requires codes != tokens && codes.expiry == ExpiryOf && tokens.expiry == ExpiryOf
      ensures Valid() && this.cfg == cfg && this.codes == codes && this.tokens == tokens
    {
      this.cfg, this.codes, this.tokens := cfg, codes, tokens;
    }

    /** `authorizationCodeGrant`; `generated` is the generated refresh token. A request that lacks a field leaves the
        code as it was; from any other the code is gone, whatever the checks find. */
    method AuthorizationCodeGrant(
      code: string, redirectUri: string, verifier: string, client: string, checks: Checks, generated: string, now: int)
      returns (r: Response)
      requires Valid()
      modifies codes, tokens
      ensures (code == "" || redirectUri == "" || verifier == "") <==> r == Refused(InvalidRequest)
      ensures r == Refused(InvalidRequest) ==> codes.file == old(codes.file)
      ensures code in Swept(codes.file, ExpiryOf, now) <==>
                r == Refused(InvalidRequest) && code in old(Swept(codes.file, ExpiryOf, now))
      ensures forall other :: other != code && other in old(Swept(codes.file, ExpiryOf, now)) ==>
                other in codes.file && codes.file[other] == old(codes.file)[other]
      ensures r.Granted? <==>
                && code != "" && redirectUri != "" && verifier != ""
                && code in old(Swept(codes.file, ExpiryOf, now)) && old(codes.file)[code].client == client
                && checks.proofHolds && checks.resourceMatches && checks.allowed
      ensures r.Granted? ==> r.refreshToken == generated &&
                             tokens.file == old(Swept(tokens.file, ExpiryOf, now))[generated := Record(now + cfg.ttl, false, client)]
      ensures !r.Granted? ==> tokens.file == old(tokens.file)
    {
      if code == "" || redirectUri == "" || verifier == "" { return Refused(InvalidRequest); }
      var record := codes.ConsumeOnce(code, now);
      if record.None? || record.value.client != client || !checks.proofHolds { return Refused(InvalidGrant); }
      if !checks.resourceMatches { return Refused(InvalidTarget); }
      if !checks.allowed { return Refused(AccessDenied); }
      tokens.Put(generated, Record(now + cfg.ttl, false, client), now);
      return Granted(generated);
    }

    /** `refreshTokenGrant`. A granted use replaces the token, and keeps the old one for what is left of its
        grace; a refused use leaves neither. */
    method RefreshTokenGrant(token: string, client: string, checks: Checks, generated: string, now: int) returns (r: Response)
      requires Valid() && generated != token
      modifies tokens
      ensures r.Granted? <==>
                token != "" && token in old(Swept(tokens.file, ExpiryOf, now)) && old(tokens.file)[token].client == client
                && checks.resourceMatches && checks.allowed
      ensures r.Granted? ==>
                && r.refreshToken == generated
                && (cfg.ttl >= 0 ==> generated in tokens.file && tokens.file[generated] == Record(now + cfg.ttl, false, client))
                && (token in tokens.file <==> cfg.grace > 0 && GraceExpiry(old(tokens.file)[token], now, cfg.grace) > now)
                && (token in tokens.file ==> tokens.file[token] == Record(GraceExpiry(old(tokens.file)[token], now, cfg.grace), true, client))
      ensures !r.Granted? && token != "" ==> token !in Swept(tokens.file, ExpiryOf, now)
      ensures forall other :: other != token && other != generated && other in Swept(tokens.file, ExpiryOf, now) ==>
                other in old(tokens.file) && tokens.file[other] == old(tokens.file)[other]
    {
      if token == "" { return Refused(InvalidRequest); }
      var consumed := tokens.ConsumeOnce(token, now);
      if consumed.None? { return Refused(InvalidGrant); }
      var record := consumed.value;
      if record.client != client { return Refused(InvalidGrant); }
      if !checks.resourceMatches { return Refused(InvalidTarget); }
      if !checks.allowed { return Refused(InvalidGrant); }
      var graceExpiresAt := if cfg.grace > 0 then GraceExpiry(record, now, cfg.grace) else 0;
      tokens.Put(generated, record.(expires := now + cfg.ttl, grace := false), now);
      if cfg.grace > 0 && graceExpiresAt > now {
        tokens.Put(token, record.(expires := graceExpiresAt, grace := true), now);
      }
      return Granted(generated);
    }
  }
}
