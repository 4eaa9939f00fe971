/** Authorization codes and rotating refresh tokens (`src/oauth/token.ts`), as grants that may stall or die
    between any two accesses to the state store. */
module RefreshRotation {
  import opened OAuthState

  // ---------------------------------------------------------------- the machine

  datatype Record = Record(expires: int, grace: bool, client: string)

  function ExpiryOf(r: Record): int {
    r.expires
  }

  /** A grant under way: it has consumed a token's record, has read the clock for its decision, and has stored
      the token that replaces it. */
  datatype Grant =
    | NoGrant
    | Holding(token: string, record: Record)
    | Deciding(token: string, record: Record, at: int)
    | Rotating(token: string, record: Record, at: int)
    | HoldingCode(code: string)

  /** `issued`, `uses`, `first` and `redeemed` are history: the expiry each token was issued with, when it was
      consumed, the clock reading of its first granted use, and the codes consumed. The only steps to look at `issued`
      and `codesIssued` are those that generate a token or a code, which is always a new one. */
  datatype Server = Server(
    tokens: map<string, Record>, codes: map<string, Record>, now: int, grants: map<nat, Grant>,
    issued: map<string, int>, uses: map<string, seq<int>>, first: map<string, int>, codesIssued: set<string>, redeemed: seq<string>)

  datatype Config = Config(grace: int, ttl: int)

  datatype Action =
    | Tick(seconds: nat)
    | IssueCode(code: string, record: Record)
    | RedeemCode(g: nat, code: string)
    | IssueFirst(g: nat, token: string, client: string)
    | Consume(g: nat, token: string)
    | Abandon(g: nat)
    | Decide(g: nat)
    | PutNew(g: nat, token: string)
    | PutGrace(g: nat)
    | Revoke(token: string)
    | Cleanup

  function GrantOf(s: Server, g: nat): Grant {
    if g in s.grants then s.grants[g] else NoGrant
  }

  function Uses(s: Server, token: string): seq<int> {
    if token in s.uses then s.uses[token] else []
  }

  function Min(a: int, b: int): int {
    if a <= b then a else b
  }

  /** `graceExpiresAt`, for a positive grace. */
  function GraceExpiry(r: Record, at: int, grace: int): int {
    if r.grace then r.expires else Min(if r.expires == 0 then at + grace else r.expires, at + grace)
  }

  function PutToken(s: Server, token: string, r: Record): Server {
    s.(tokens := Swept(s.tokens, ExpiryOf, s.now)[token := r])
  }

  /** One access to the store, or one reading of the clock; random tokens and codes are never repeated. */
  function Act(cfg: Config, s: Server, a: Action): Server {
    match a
    case Tick(seconds) => s.(now := s.now + seconds)
    case IssueCode(code, r) =>
      if code in s.codesIssued then s
      else s.(codes := Swept(s.codes, ExpiryOf, s.now)[code := r], codesIssued := s.codesIssued + {code})
    case RedeemCode(g, code) =>
      if !GrantOf(s, g).NoGrant? || code !in Swept(s.codes, ExpiryOf, s.now) then s
      else s.(codes := Swept(s.codes, ExpiryOf, s.now) - {code}, grants := s.grants[g := HoldingCode(code)], redeemed := s.redeemed + [code])
    case IssueFirst(g, token, client) =>
      if !GrantOf(s, g).HoldingCode? || token in s.issued then s
      else PutToken(s, token, Record(s.now + cfg.ttl, false, client)).(
          grants := s.grants[g := NoGrant], issued := s.issued[token := s.now + cfg.ttl])
    case Consume(g, token) =>
      if !GrantOf(s, g).NoGrant? || token !in Swept(s.tokens, ExpiryOf, s.now) then s
      else s.(tokens := Swept(s.tokens, ExpiryOf, s.now) - {token}, grants := s.grants[g := Holding(token, s.tokens[token])],
              uses := s.uses[token := Uses(s, token) + [s.now]])
    case Abandon(g) => s.(grants := s.grants[g := NoGrant])
    case Decide(g) =>
      (match GrantOf(s, g)
       case Holding(token, r) =>
         s.(grants := s.grants[g := Deciding(token, r, s.now)], first := if token in s.first then s.first else s.first[token := s.now])
       case _ => s)
    case PutNew(g, token) =>
      (match GrantOf(s, g)
       case Deciding(old_, r, at) =>
         if token in s.issued then s
         else PutToken(s, token, r.(expires := at + cfg.ttl, grace := false)).(
             grants := s.grants[g := Rotating(old_, r, at)], issued := s.issued[token := at + cfg.ttl])
       case _ => s)
    case PutGrace(g) =>
      (match GrantOf(s, g)
       case Rotating(token, r, at) =>
         var done := s.(grants := s.grants[g := NoGrant]);
         if cfg.grace > 0 && GraceExpiry(r, at, cfg.grace) > at
         then PutToken(done, token, r.(expires := GraceExpiry(r, at, cfg.grace), grace := true))
         else done
       case _ => s)
    case Revoke(token) =>
      if token in Swept(s.tokens, ExpiryOf, s.now) then s.(tokens := Swept(s.tokens, ExpiryOf, s.now) - {token}) else s
    case Cleanup => s.(tokens := Swept(s.tokens, ExpiryOf, s.now), codes := Swept(s.codes, ExpiryOf, s.now))
  }

  function RunServer(cfg: Config, s: Server, actions: seq<Action>): Server
    decreases |actions|
  {
    if actions == [] then s else RunServer(cfg, Act(cfg, s, actions[0]), actions[1..])
  }

  // ---------------------------------------------------------------- the invariant

  predicate Held(g: Grant, token: string) {
    (g.Holding? || g.Deciding? || g.Rotating?) && g.token == token
  }

  /** A record that can still be used, or is in a grant's hands. */
  predicate RecordSound(cfg: Config, s: Server, token: string, r: Record) {
    && token in s.issued && r.expires <= s.issued[token]
    && (r.grace ==> cfg.grace > 0 && token in s.first && r.expires <= s.first[token] + cfg.grace)
    && (!r.grace ==> r.expires == s.issued[token])
  }

  predicate GrantSound(cfg: Config, s: Server, g: Grant) {
    match g
    case Holding(token, r) => RecordSound(cfg, s, token, r) && r.expires > 0 && Uses(s, token) != [] && (!r.grace ==> token !in s.first)
    case Deciding(token, r, at) =>
      RecordSound(cfg, s, token, r) && r.expires > 0 && Uses(s, token) != [] && token in s.first &&
      (!r.grace ==> s.first[token] == at)
    case Rotating(token, r, at) =>
      RecordSound(cfg, s, token, r) && r.expires > 0 && Uses(s, token) != [] && token in s.first &&
      (!r.grace ==> s.first[token] == at)
    case _ => true
  }

  predicate InGrace(cfg: Config, s: Server, token: string, use: int) {
    cfg.grace > 0 && token in s.first && use <= s.first[token] + cfg.grace
  }

  /** Within its window: never after the original expiry, and after the first use only within the grace. */
  predicate UsesSound(cfg: Config, s: Server, token: string) {
    var uses := Uses(s, token);
    && (uses != [] ==> token in s.issued)
    && (forall i :: 0 <= i < |uses| ==> uses[i] <= s.issued[token] && uses[i] <= s.now)
    && (forall i :: 1 <= i < |uses| ==> InGrace(cfg, s, token, uses[i]))
    && (token in s.first ==> uses != [] && uses[0] <= s.first[token])
  }

  predicate StoredSound(cfg: Config, s: Server, token: string) {
    token in s.tokens ==>
      RecordSound(cfg, s, token, s.tokens[token]) && (!s.tokens[token].grace ==> Uses(s, token) == [] && token !in s.first)
  }

  /** A record is in the store or in the hands of one grant, never both. */
  ghost predicate Exclusive(s: Server) {
    && (forall g: nat, token :: Held(GrantOf(s, g), token) ==> token !in s.tokens)
    && (forall g: nat, h: nat, token :: Held(GrantOf(s, g), token) && Held(GrantOf(s, h), token) ==> g == h)
  }

  ghost predicate Inv(cfg: Config, s: Server) {
    && s.now > 0
    && (forall token :: StoredSound(cfg, s, token))
    && (forall g: nat :: GrantSound(cfg, s, GrantOf(s, g)))
    && Exclusive(s)
    && (forall token :: UsesSound(cfg, s, token))
    && (forall token :: token in s.first ==> token in s.issued)
  }

  lemma StoredKept(cfg: Config, s: Server, a: Action, token: string)
    requires Inv(cfg, s)
    ensures StoredSound(cfg, Act(cfg, s, a), token)
  {
    assert StoredSound(cfg, s, token) && UsesSound(cfg, s, token);
    if a.PutGrace? || a.PutNew? || a.Decide? { assert GrantSound(cfg, s, GrantOf(s, a.g)); }
    if a.Decide? && Held(GrantOf(s, a.g), token) { assert token !in s.tokens; }
    hide Inv, Exclusive;
  }

  /** A step of another grant leaves what this one relies on. */
  lemma OtherGrantKept(cfg: Config, s: Server, a: Action, g: nat)
    requires Inv(cfg, s) && GrantOf(Act(cfg, s, a), g) == GrantOf(s, g)
    requires a.Decide? ==> a.g != g
    ensures GrantSound(cfg, Act(cfg, s, a), GrantOf(s, g))
  {
    var q := GrantOf(s, g);
    assert GrantSound(cfg, s, q);
    if a.Decide? && (q.Holding? || q.Deciding? || q.Rotating?) {
      assert Held(q, q.token);
      assert !Held(GrantOf(s, a.g), q.token);
    }
    hide Inv, Exclusive, StoredSound, UsesSound;
  }

  lemma GrantKept(cfg: Config, s: Server, a: Action, g: nat)
    requires Inv(cfg, s)
    ensures GrantSound(cfg, Act(cfg, s, a), GrantOf(Act(cfg, s, a), g))
  {
    if GrantOf(Act(cfg, s, a), g) == GrantOf(s, g) && (a.Decide? ==> a.g != g) {
      OtherGrantKept(cfg, s, a, g);
      hide Act, GrantSound;
    } else {
      assert GrantSound(cfg, s, GrantOf(s, g));
      if a.Consume? { assert StoredSound(cfg, s, a.token); }
      hide Inv, Exclusive, StoredSound, UsesSound;
    }
  }

  lemma ExclusiveKept(cfg: Config, s: Server, a: Action)
    requires Inv(cfg, s)
    ensures Exclusive(Act(cfg, s, a))
  {
    var t := Act(cfg, s, a);
    hide Act, StoredSound, UsesSound, GrantSound, Held;
    forall g: nat, token | Held(GrantOf(t, g), token) ensures token !in t.tokens { HeldNotStored(cfg, s, a, g, token); }
    forall g: nat, h: nat, token | Held(GrantOf(t, g), token) && Held(GrantOf(t, h), token) ensures g == h {
      HeldBefore(cfg, s, a, g, token);
      HeldBefore(cfg, s, a, h, token);
    }
  }

  /** Who holds a record held it before, or has just consumed it. */
  lemma HeldBefore(cfg: Config, s: Server, a: Action, g: nat, token: string)
    requires Held(GrantOf(Act(cfg, s, a), g), token)
    ensures Held(GrantOf(s, g), token) || (a.Consume? && a.g == g && a.token == token && token in s.tokens)
  {
  }

  lemma HeldNotStored(cfg: Config, s: Server, a: Action, g: nat, token: string)
    requires Inv(cfg, s) && Held(GrantOf(Act(cfg, s, a), g), token)
    ensures token !in Act(cfg, s, a).tokens
  {
    assert GrantSound(cfg, s, GrantOf(s, g));
    HeldBefore(cfg, s, a, g, token);
    if a.PutGrace? && Held(GrantOf(s, a.g), token) { assert a.g == g; }
    hide StoredSound, UsesSound;
  }

  /** Consuming a token now is one more use, within its window. */
  lemma ConsumeUses(cfg: Config, s: Server, a: Action, token: string)
    requires a.Consume? && a.token == token && StoredSound(cfg, s, token) && UsesSound(cfg, s, token)
    ensures UsesSound(cfg, Act(cfg, s, a), token)
  {
    var t := Act(cfg, s, a);
    if t != s {
      assert Uses(t, token) == Uses(s, token) + [s.now];
      forall i | 1 <= i < |Uses(t, token)| ensures InGrace(cfg, t, token, Uses(t, token)[i]) {
        if i < |Uses(s, token)| { assert InGrace(cfg, s, token, Uses(s, token)[i]); }
      }
    }
  }

  lemma UsesUnchanged(cfg: Config, s: Server, a: Action, token: string)
    requires !(a.Consume? && a.token == token)
    requires a.Decide? ==> GrantSound(cfg, s, GrantOf(s, a.g))
    requires UsesSound(cfg, s, token)
    ensures var t := Act(cfg, s, a);
            && Uses(t, token) == Uses(s, token) && s.now <= t.now
            && (token in s.issued ==> token in t.issued && t.issued[token] == s.issued[token])
            && (token in s.first ==> token in t.first && t.first[token] == s.first[token])
            && (token in t.first && token !in s.first ==> Uses(s, token) != [] && t.first[token] == s.now)
  {
    hide Swept, RecordSound, InGrace;
  }

  lemma UsesKept(cfg: Config, s: Server, a: Action, token: string)
    requires Inv(cfg, s)
    ensures UsesSound(cfg, Act(cfg, s, a), token)
  {
    assert StoredSound(cfg, s, token) && UsesSound(cfg, s, token);
    if a.Decide? { assert GrantSound(cfg, s, GrantOf(s, a.g)); }
    hide Inv, Exclusive, StoredSound, GrantSound, Act, Uses;
    if a.Consume? && a.token == token {
      ConsumeUses(cfg, s, a, token);
    } else {
      UsesUnchanged(cfg, s, a, token);
      var t := Act(cfg, s, a);
      forall i | 1 <= i < |Uses(t, token)| ensures InGrace(cfg, t, token, Uses(t, token)[i]) {
        assert InGrace(cfg, s, token, Uses(s, token)[i]);
      }
    }
  }

  lemma InvKept(cfg: Config, s: Server, a: Action)
    requires Inv(cfg, s)
    ensures Inv(cfg, Act(cfg, s, a))
  {
    ExclusiveKept(cfg, s, a);
    FirstIssued(cfg, s, a);
    var t := Act(cfg, s, a);
    hide Act, Exclusive, StoredSound, GrantSound, UsesSound;
    forall token ensures StoredSound(cfg, t, token) { StoredKept(cfg, s, a, token); }
    forall g: nat ensures GrantSound(cfg, t, GrantOf(t, g)) { GrantKept(cfg, s, a, g); }
    forall token ensures UsesSound(cfg, t, token) { UsesKept(cfg, s, a, token); }
  }

  lemma FirstIssued(cfg: Config, s: Server, a: Action)
    requires Inv(cfg, s)
    ensures Act(cfg, s, a).now > 0
    ensures forall token :: token in Act(cfg, s, a).first ==> token in Act(cfg, s, a).issued
  {
    if a.Decide? { assert GrantSound(cfg, s, GrantOf(s, a.g)); }
    hide Exclusive, StoredSound, UsesSound;
  }

  lemma {:induction false} RunInv(cfg: Config, s: Server, actions: seq<Action>)
    requires Inv(cfg, s)
    ensures Inv(cfg, RunServer(cfg, s, actions))
    decreases |actions|
  {
    hide Inv, Act;
    if actions != [] {
      InvKept(cfg, s, actions[0]);
      RunInv(cfg, Act(cfg, s, actions[0]), actions[1..]);
    }
  }

  /** Nothing issued yet. */
  predicate Fresh(s: Server) {
    && s.now > 0 && s.tokens == map[] && s.codes == map[] && s.grants == map[] && s.issued == map[] && s.uses == map[] && s.first == map[]
    && s.codesIssued == {} && s.redeemed == []
  }

  // ---------------------------------------------------------------- the theorems

  /** The rotation window of one refresh token, over every run in which the clock does not go back: every use
      falls at or before its original expiry and, once it has been granted for the first time, within the grace
      of that moment; with no grace it is used at most once; and no live record of it reaches further. */
  lemma RotationWindow(cfg: Config, start: Server, actions: seq<Action>, token: string)
    requires Fresh(start)
    ensures var s := RunServer(cfg, start, actions);
            var uses := Uses(s, token);
            && (uses != [] ==> token in s.issued)
            && (forall i :: 0 <= i < |uses| ==> uses[i] <= s.issued[token])
            && (token in s.first && cfg.grace >= 0 ==> forall i :: 0 <= i < |uses| ==> uses[i] <= s.first[token] + cfg.grace)
            && (|uses| > 1 ==> token in s.first)
            && (cfg.grace <= 0 ==> |uses| <= 1)
            && (token in s.tokens ==>
                  && token in s.issued && s.tokens[token].expires <= s.issued[token]
                  && (uses != [] ==> token in s.first && s.tokens[token].expires <= s.first[token] + cfg.grace))
  {
    assert Inv(cfg, start);
    RunInv(cfg, start, actions);
    var s := RunServer(cfg, start, actions);
    assert UsesSound(cfg, s, token) && StoredSound(cfg, s, token);
    hide Fresh, RunServer;
    var uses := Uses(s, token);
    assert |uses| > 1 ==> uses[1] <= s.issued[token];
  }

  /** Counted from the first use itself the grace can be exceeded, but only by the time that passes between
      consuming the token and reading the clock for the decision. */
  lemma WindowFromFirstUse(cfg: Config, start: Server, actions: seq<Action>, token: string)
    requires Fresh(start) && cfg.grace >= 0
    ensures var s := RunServer(cfg, start, actions);
            var uses := Uses(s, token);
            token in s.first ==>
              && uses != [] && uses[0] <= s.first[token]
              && forall i :: 0 <= i < |uses| ==> uses[i] - uses[0] <= cfg.grace + (s.first[token] - uses[0])
  {
    RotationWindow(cfg, start, actions, token);
    assert Inv(cfg, start);
    RunInv(cfg, start, actions);
    assert UsesSound(cfg, RunServer(cfg, start, actions), token);
    hide Fresh, RunServer;
  }

  /** A token consumed for the first time, and some delay. */
  function SlowUse(now: int, delay: nat): seq<Action> {
    [IssueCode("code", Record(now, false, "client")), RedeemCode(0, "code"), IssueFirst(0, "old", "client"), Consume(1, "old"), Tick(delay)]
  }

  /** The grant of that use, and a second use after the whole grace. */
  function LateReuse(grace: nat): seq<Action> {
    [Decide(1), PutNew(1, "new"), PutGrace(1), Tick(grace), Consume(2, "old")]
  }

  /** And it is exceeded by any such delay that the token's own expiry leaves room for. */
  lemma DelayExtendsWindow(cfg: Config, start: Server, delay: nat)
    requires Fresh(start) && cfg.grace > 0 && delay + cfg.grace <= cfg.ttl
    ensures var s := RunServer(cfg, start, SlowUse(start.now, delay) + LateReuse(cfg.grace));
            && Uses(s, "old") == [start.now, start.now + delay + cfg.grace]
            && "old" in s.first && s.first["old"] == start.now + delay
  {
    hide RunServer, Act, Fresh;
    RunConcat(cfg, start, SlowUse(start.now, delay), LateReuse(cfg.grace));
    SlowConsumed(cfg, start, delay);
    SlowReused(cfg, RunServer(cfg, start, SlowUse(start.now, delay)));
  }

  lemma SlowConsumed(cfg: Config, start: Server, delay: nat)
    requires Fresh(start) && cfg.ttl >= 0
    ensures var s := RunServer(cfg, start, SlowUse(start.now, delay));
            && GrantOf(s, 1) == Holding("old", Record(start.now + cfg.ttl, false, "client")) && GrantOf(s, 2).NoGrant?
            && s.now == start.now + delay && s.first == map[] && s.issued.Keys == {"old"} && Uses(s, "old") == [start.now]
            && start.now > 0
  {
    hide RunServer, Act, Swept;
    var code := Record(start.now, false, "client");
    FiveSteps(cfg, start, IssueCode("code", code), RedeemCode(0, "code"), IssueFirst(0, "old", "client"), Consume(1, "old"), Tick(delay));
    CodeRedeemed(cfg, start, code);
    var two := Act(cfg, Act(cfg, start, IssueCode("code", code)), RedeemCode(0, "code"));
    TokenConsumed(cfg, two, delay);
  }

  lemma CodeRedeemed(cfg: Config, start: Server, code: Record)
    requires Fresh(start) && code.expires == start.now
    ensures var two := Act(cfg, Act(cfg, start, IssueCode("code", code)), RedeemCode(0, "code"));
            && GrantOf(two, 0) == HoldingCode("code") && GrantOf(two, 1).NoGrant? && GrantOf(two, 2).NoGrant?
            && two.(codes := start.codes, codesIssued := start.codesIssued, grants := start.grants, redeemed := start.redeemed) == start
  {
    var one := Act(cfg, start, IssueCode("code", code));
    assert one.codes == map["code" := code];
  }

  lemma TokenConsumed(cfg: Config, s: Server, delay: nat)
    requires cfg.ttl >= 0 && GrantOf(s, 0).HoldingCode? && GrantOf(s, 1).NoGrant? && GrantOf(s, 2).NoGrant?
    requires s.tokens == map[] && s.issued == map[] && s.uses == map[] && s.first == map[]
    ensures var t := Act(cfg, Act(cfg, Act(cfg, s, IssueFirst(0, "old", "client")), Consume(1, "old")), Tick(delay));
            && GrantOf(t, 1) == Holding("old", Record(s.now + cfg.ttl, false, "client")) && GrantOf(t, 2).NoGrant?
            && t.now == s.now + delay && t.first == map[] && t.issued.Keys == {"old"} && Uses(t, "old") == [s.now]
  {
    var three := Act(cfg, s, IssueFirst(0, "old", "client"));
    assert three.tokens == map["old" := Record(s.now + cfg.ttl, false, "client")] && GrantOf(three, 1).NoGrant?;
  }

  lemma SlowReused(cfg: Config, s: Server)
    requires cfg.grace > 0 && GrantOf(s, 1).Holding? && GrantOf(s, 1).token == "old" && GrantOf(s, 2).NoGrant?
    requires var r := GrantOf(s, 1).record; !r.grace && r.expires > 0 && s.now + cfg.grace <= r.expires
    requires s.first == map[] && s.issued.Keys == {"old"}
    ensures var t := RunServer(cfg, s, LateReuse(cfg.grace));
            Uses(t, "old") == Uses(s, "old") + [s.now + cfg.grace] && "old" in t.first && t.first["old"] == s.now
  {
    hide RunServer, Act, GraceExpiry, Swept;
    FiveSteps(cfg, s, Decide(1), PutNew(1, "new"), PutGrace(1), Tick(cfg.grace), Consume(2, "old"));
    SlowDecided(cfg, s);
    var two := Act(cfg, Act(cfg, s, Decide(1)), PutNew(1, "new"));
    SlowKept(cfg, two, GrantOf(s, 1).record);
    var four := Act(cfg, Act(cfg, two, PutGrace(1)), Tick(cfg.grace));
    GraceUsed(cfg, four);
  }

  lemma SlowDecided(cfg: Config, s: Server)
    requires GrantOf(s, 1).Holding? && GrantOf(s, 1).token == "old" && s.first == map[] && s.issued.Keys == {"old"}
    ensures var two := Act(cfg, Act(cfg, s, Decide(1)), PutNew(1, "new"));
            && GrantOf(two, 1) == Rotating("old", GrantOf(s, 1).record, s.now) && GrantOf(two, 2) == GrantOf(s, 2)
            && two.now == s.now && two.first == map["old" := s.now] && Uses(two, "old") == Uses(s, "old")
  {
    assert "new"[0] != "old"[0];
    hide Swept;
  }

  lemma SlowKept(cfg: Config, s: Server, r: Record)
    requires cfg.grace > 0 && GrantOf(s, 1) == Rotating("old", r, s.now) && !r.grace && r.expires > 0 && s.now + cfg.grace <= r.expires
    ensures var four := Act(cfg, Act(cfg, s, PutGrace(1)), Tick(cfg.grace));
            && "old" in four.tokens && four.tokens["old"].expires == four.now == s.now + cfg.grace
            && GrantOf(four, 2) == GrantOf(s, 2) && four.first == s.first && Uses(four, "old") == Uses(s, "old")
  {
    hide Swept;
  }

  lemma GraceUsed(cfg: Config, s: Server)
    requires "old" in s.tokens && s.tokens["old"].expires == s.now && GrantOf(s, 2).NoGrant?
    ensures var t := Act(cfg, s, Consume(2, "old")); Uses(t, "old") == Uses(s, "old") + [s.now] && t.first == s.first
  {
  }

  lemma FiveSteps(cfg: Config, s: Server, a: Action, b: Action, c: Action, d: Action, e: Action)
    ensures RunServer(cfg, s, [a, b, c, d, e]) == Act(cfg, Act(cfg, Act(cfg, Act(cfg, Act(cfg, s, a), b), c), d), e)
  {
    hide Act, RunServer;
    var one := Act(cfg, s, a);
    var two := Act(cfg, one, b);
    var three := Act(cfg, two, c);
    var four := Act(cfg, three, d);
    RunFirst(cfg, s, a, [b, c, d, e]);
    RunFirst(cfg, one, b, [c, d, e]);
    RunFirst(cfg, two, c, [d, e]);
    RunFirst(cfg, three, d, [e]);
    RunFirst(cfg, four, e, []);
    assert [a] + [b, c, d, e] == [a, b, c, d, e] && [b] + [c, d, e] == [b, c, d, e] && [c] + [d, e] == [c, d, e];
    assert [d] + [e] == [d, e] && [e] + [] == [e];
    RunNothing(cfg, Act(cfg, four, e));
  }

  lemma RunFirst(cfg: Config, s: Server, a: Action, rest: seq<Action>)
    ensures RunServer(cfg, s, [a] + rest) == RunServer(cfg, Act(cfg, s, a), rest)
  {
    hide Act;
    assert ([a] + rest)[1..] == rest;
  }

  lemma RunNothing(cfg: Config, s: Server)
    ensures RunServer(cfg, s, []) == s
  {
  }

  lemma {:induction false} RunConcat(cfg: Config, s: Server, a: seq<Action>, b: seq<Action>)
    ensures RunServer(cfg, s, a + b) == RunServer(cfg, RunServer(cfg, s, a), b)
    decreases |a|
  {
    hide Act;
    if a == [] {
      assert a + b == b;
    } else {
      assert (a + b)[1..] == a[1..] + b;
      RunConcat(cfg, Act(cfg, s, a[0]), a[1..], b);
    }
  }

  /** A refresh that nothing interrupts: the new token is good for its whole life, and the old one, which was not
      expired, stays exactly while it has some of its grace left. */
  lemma GrantIsARun(cfg: Config, s: Server, g: nat, token: string, next: string)
    requires GrantOf(s, g).NoGrant? && token in s.tokens && s.now <= s.tokens[token].expires
    requires next !in s.issued && next != token && cfg.ttl >= 0
    ensures var t := RunServer(cfg, s, [Consume(g, token), Decide(g), PutNew(g, next), PutGrace(g)]);
            var r := s.tokens[token];
            var until := if r.grace then r.expires else Min(if r.expires == 0 then s.now + cfg.grace else r.expires, s.now + cfg.grace);
            && GrantOf(t, g).NoGrant? && Uses(t, token) == Uses(s, token) + [s.now]
            && next in t.tokens && t.tokens[next] == Record(s.now + cfg.ttl, false, r.client)
            && (token in t.tokens <==> cfg.grace > 0 && s.now < until)
            && (token in t.tokens ==> t.tokens[token] == Record(until, true, r.client))
  {
    hide RunServer, Act;
    var one, three := Act(cfg, s, Consume(g, token)), Act(cfg, Act(cfg, Act(cfg, s, Consume(g, token)), Decide(g)), PutNew(g, next));
    RunFirst(cfg, s, Consume(g, token), [Decide(g), PutNew(g, next), PutGrace(g)]);
    RunFirst(cfg, one, Decide(g), [PutNew(g, next), PutGrace(g)]);
    RunFirst(cfg, Act(cfg, one, Decide(g)), PutNew(g, next), [PutGrace(g)]);
    RunFirst(cfg, three, PutGrace(g), []);
    RunNothing(cfg, Act(cfg, three, PutGrace(g)));
    assert [Consume(g, token)] + [Decide(g), PutNew(g, next), PutGrace(g)] == [Consume(g, token), Decide(g), PutNew(g, next), PutGrace(g)];
    assert [Decide(g)] + [PutNew(g, next), PutGrace(g)] == [Decide(g), PutNew(g, next), PutGrace(g)];
    assert [PutNew(g, next)] + [PutGrace(g)] == [PutNew(g, next), PutGrace(g)] && [PutGrace(g)] + [] == [PutGrace(g)];
    GrantRotates(cfg, s, g, token, next);
    GrantKeeps(cfg, three, g, token, s.tokens[token], next);
  }

  lemma GrantRotates(cfg: Config, s: Server, g: nat, token: string, next: string)
    requires GrantOf(s, g).NoGrant? && token in s.tokens && s.now <= s.tokens[token].expires && next !in s.issued && next != token
    ensures var three := Act(cfg, Act(cfg, Act(cfg, s, Consume(g, token)), Decide(g)), PutNew(g, next));
            && GrantOf(three, g) == Rotating(token, s.tokens[token], s.now) && three.now == s.now && Uses(three, token) == Uses(s, token) + [s.now]
            && token !in three.tokens && next in three.tokens && three.tokens[next] == Record(s.now + cfg.ttl, false, s.tokens[token].client)
  {
    var two := Act(cfg, Act(cfg, s, Consume(g, token)), Decide(g));
    assert GrantOf(two, g) == Deciding(token, s.tokens[token], s.now) && token !in two.tokens;
  }

  lemma GrantKeeps(cfg: Config, s: Server, g: nat, token: string, r: Record, next: string)
    requires GrantOf(s, g) == Rotating(token, r, s.now) && token !in s.tokens && next in s.tokens && s.now <= s.tokens[next].expires && next != token
    ensures var t := Act(cfg, s, PutGrace(g));
            var until := if r.grace then r.expires else Min(if r.expires == 0 then s.now + cfg.grace else r.expires, s.now + cfg.grace);
            && GrantOf(t, g).NoGrant? && Uses(t, token) == Uses(s, token) && next in t.tokens && t.tokens[next] == s.tokens[next]
            && (token in t.tokens <==> cfg.grace > 0 && s.now < until) && (token in t.tokens ==> t.tokens[token] == Record(until, true, r.client))
  {
  }

  ghost predicate CodesInv(s: Server) {
    && (forall c :: c in s.codes ==> c in s.codesIssued && c !in s.redeemed)
    && (forall c :: c in s.redeemed ==> c in s.codesIssued)
    && (forall i, j :: 0 <= i < j < |s.redeemed| ==> s.redeemed[i] != s.redeemed[j])
  }

  lemma CodesKept(cfg: Config, s: Server, a: Action)
    requires CodesInv(s)
    ensures CodesInv(Act(cfg, s, a))
  {
  }

  /** An authorization code is redeemed at most once. */
  lemma {:induction false} CodesOnce(cfg: Config, s: Server, actions: seq<Action>, i: nat, j: nat)
    requires CodesInv(s)
    requires i < j < |RunServer(cfg, s, actions).redeemed|
    ensures RunServer(cfg, s, actions).redeemed[i] != RunServer(cfg, s, actions).redeemed[j]
    decreases |actions|
  {
    hide Act;
    if actions != [] {
      CodesKept(cfg, s, actions[0]);
      CodesOnce(cfg, Act(cfg, s, actions[0]), actions[1..], i, j);
    }
  }
}
