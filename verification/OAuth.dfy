/**
  * `PersistentOAuthStore` and the authorization codes of src/oauth.ts.
  *
  * A token stands for its own SHA-256 digest. Random tokens and grant ids are values not handed out before.
  * A failed write of the state file may leave either content behind; a restart loads what is there.
  */
module OAuth {
  import opened Wrappers

  type Token = nat
  type GrantId = nat
  type ClientId = nat
  type Scope = string

  datatype TokenType = Access | Refresh | UsedRefresh

  datatype StoredToken = StoredToken(
    kind: TokenType, clientId: ClientId, scopes: set<Scope>, expiresAt: int, resource: string, grantId: Option<GrantId>)

  datatype Client = Client(clientId: ClientId, issuedAt: int, usesRefresh: bool)

  datatype State = State(clients: map<ClientId, Client>, tokens: map<Token, StoredToken>)

  datatype Issue = Issue(access: Token, refresh: Option<Token>)
  datatype RefreshResult = Invalid | InvalidScope | Rotated(tokens: Issue)

  // ------------------------------------------------------------------------- what operations compute

  function Pruned(s: State, now: int): State {
    s.(tokens := map t | t in s.tokens && s.tokens[t].expiresAt > now :: s.tokens[t])
  }

  function OfGrant(t: StoredToken, g: GrantId): bool { t.grantId == Some(g) }

  /** The token is of a grant that was made to this client. */
  predicate Owns(s: State, t: Token, clientId: ClientId) {
    t in s.tokens && s.tokens[t].clientId == clientId && s.tokens[t].grantId.Some?
  }

  /** `revokeGrantWithoutPersist`. */
  function Revoked(s: State, g: GrantId, keepEvidence: bool): State {
    s.(tokens :=
         map t | t in s.tokens && (!OfGrant(s.tokens[t], g) || (keepEvidence && s.tokens[t].kind == UsedRefresh)) ::
           s.tokens[t])
  }

  /** `issueTokenPairWithoutPersist`. */
  function Issued(s: State, issue: Issue, clientId: ClientId, scopes: set<Scope>, resource: string, g: GrantId,
                  accessExpiry: int, refreshExpiry: int): State {
    var withAccess := s.tokens[issue.access := StoredToken(Access, clientId, scopes, accessExpiry, resource, Some(g))];
    var refresh := StoredToken(Refresh, clientId, scopes, refreshExpiry, resource, Some(g));
    s.(tokens := if issue.refresh.None? then withAccess else withAccess[issue.refresh.value := refresh])
  }

  function MarkUsed(s: State, t: Token, g: GrantId): State
    requires t in s.tokens
  {
    s.(tokens := s.tokens[t := s.tokens[t].(kind := UsedRefresh, grantId := Some(g))])
  }

  /** The presented token is bound to this client and resource and has not expired. */
  predicate Presentable(s: State, t: Token, clientId: ClientId, resource: string, now: int) {
    t in s.tokens && s.tokens[t].clientId == clientId && s.tokens[t].resource == resource && s.tokens[t].expiresAt > now
  }

  // --------------------------------------------------------------------- what operations have to do

  /** Apart from these tokens, exactly the unexpired ones are left, as they were. */
  predicate OthersStay(before: State, after: State, now: int, but: set<Token>) {
    && after.clients == before.clients
    && (forall x :: x in after.tokens && x !in but ==>
          x in before.tokens && before.tokens[x].expiresAt > now && after.tokens[x] == before.tokens[x])
    && forall x :: x in before.tokens && x !in but && before.tokens[x].expiresAt > now ==> x in after.tokens
  }

  function PairOf(issue: Issue): set<Token> {
    {issue.access} + if issue.refresh.Some? then {issue.refresh.value} else {}
  }

  predicate IsToken(s: State, x: Token, kind: TokenType, clientId: ClientId, scopes: set<Scope>, resource: string,
                    g: GrantId, expiresAt: int) {
    && x in s.tokens && s.tokens[x].kind == kind && s.tokens[x].clientId == clientId && s.tokens[x].scopes == scopes
    && s.tokens[x].resource == resource && s.tokens[x].grantId == Some(g) && s.tokens[x].expiresAt == expiresAt
  }

  /** The access token and the refresh token of this grant, each with its own time to live. */
  predicate HasPair(s: State, issue: Issue, clientId: ClientId, scopes: set<Scope>, resource: string, g: GrantId,
                    now: int, accessTtl: nat, refreshTtl: nat) {
    && IsToken(s, issue.access, Access, clientId, scopes, resource, g, now + accessTtl)
    && (issue.refresh.Some? ==>
          IsToken(s, issue.refresh.value, Refresh, clientId, scopes, resource, g, now + refreshTtl))
  }

  /** Besides the new pair nothing changes. */
  predicate IssuesAsAsked(before: State, after: State, issue: Issue, clientId: ClientId, scopes: set<Scope>,
                          resource: string, g: GrantId, now: int, accessTtl: nat, refreshTtl: nat) {
    && HasPair(after, issue, clientId, scopes, resource, g, now, accessTtl, refreshTtl)
    && OthersStay(before, after, now, PairOf(issue))
  }

  /** Of this grant nothing is left, or the evidence of the refresh tokens it used up. */
  predicate EndsGrant(before: State, after: State, g: GrantId, keepEvidence: bool, now: int) {
    && after.clients == before.clients
    && (forall x :: x in after.tokens ==> x in before.tokens && after.tokens[x] == before.tokens[x])
    && forall x :: x in before.tokens ==>
         (x in after.tokens <==>
            && before.tokens[x].expiresAt > now
            && (before.tokens[x].grantId == Some(g) ==> keepEvidence && before.tokens[x].kind == UsedRefresh))
  }

  /** The token is there, of this client and resource, and has not expired. */
  predicate IsLive(s: State, x: Token, clientId: ClientId, resource: string, now: int) {
    x in s.tokens && s.tokens[x].clientId == clientId && s.tokens[x].resource == resource && now < s.tokens[x].expiresAt
  }

  /** The scopes a presented token is exchanged for. */
  predicate AsksFor(current: StoredToken, requested: Option<set<Scope>>, scopes: set<Scope>) {
    (requested.Some? ==> scopes == requested.value) && (requested.None? ==> scopes == current.scopes)
  }

  /** The grant the new pair belongs to: the token's own, if it has one. */
  predicate InGrant(current: StoredToken, drawn: GrantId, g: GrantId) {
    (current.grantId.Some? ==> current.grantId == Some(g)) && (current.grantId.None? ==> g == drawn)
  }

  /** The token is used up, and there is a new pair in its place. */
  predicate RotatesTo(before: State, after: State, x: Token, issue: Issue, scopes: set<Scope>, g: GrantId, now: int,
                      accessTtl: nat, refreshTtl: nat)
    requires x in before.tokens
  {
    var current := before.tokens[x];
    && IsToken(after, x, UsedRefresh, current.clientId, current.scopes, current.resource, g, current.expiresAt)
    && HasPair(after, issue, current.clientId, scopes, current.resource, g, now, accessTtl, refreshTtl)
    && OthersStay(before, after, now, PairOf(issue) + {x})
  }

  /** What a client that presents a refresh token is told, and what becomes of the tokens. */
  ghost predicate ExchangesAsAsked(before: State, after: State, x: Token, clientId: ClientId, resource: string,
                                   requested: Option<set<Scope>>, issue: Issue, drawn: GrantId, now: int,
                                   accessTtl: nat, refreshTtl: nat, r: RefreshResult) {
    if !IsLive(before, x, clientId, resource, now) || before.tokens[x].kind == Access then
      r == Invalid && OthersStay(before, after, now, {})
    else if before.tokens[x].kind == UsedRefresh then
      && r == Invalid && before.tokens[x].grantId.Some?
      && EndsGrant(before, after, before.tokens[x].grantId.value, true, now)
    else if requested.Some? && !(requested.value <= before.tokens[x].scopes) then
      r == InvalidScope && OthersStay(before, after, now, {})
    else
      && r == Rotated(issue)
      && exists scopes, g :: AsksFor(before.tokens[x], requested, scopes) && InGrant(before.tokens[x], drawn, g)
           && RotatesTo(before, after, x, issue, scopes, g, now, accessTtl, refreshTtl)
  }

  /** It may have come to that, whatever the client would have been told. */
  ghost predicate Exchanging(before: State, after: State, x: Token, clientId: ClientId, resource: string,
                             requested: Option<set<Scope>>, issue: Issue, drawn: GrantId, now: int,
                             accessTtl: nat, refreshTtl: nat) {
    exists r :: ExchangesAsAsked(before, after, x, clientId, resource, requested, issue, drawn, now, accessTtl,
                                 refreshTtl, r)
  }

  /** A client can end the grants that were made to it. */
  predicate RevokesAsAsked(before: State, after: State, x: Token, clientId: ClientId, now: int) {
    if x !in before.tokens || before.tokens[x].expiresAt <= now || before.tokens[x].clientId != clientId then
      OthersStay(before, after, now, {})
    else if before.tokens[x].grantId.None? then x !in after.tokens && OthersStay(before, after, now, {x})
    else EndsGrant(before, after, before.tokens[x].grantId.value, false, now)
  }

  /** The tokens stay, but for the expired ones. */
  predicate TokensStay(before: State, after: State, now: int) {
    OthersStay(before.(clients := after.clients), after, now, {})
  }

  /** An access token that opens the door. */
  predicate Accepted(s: State, x: Token, now: int) {
    x in s.tokens && s.tokens[x].kind == Access && now < s.tokens[x].expiresAt && s.tokens[x].clientId in s.clients
  }

  lemma IssuedSays(s: State, issue: Issue, clientId: ClientId, scopes: set<Scope>, resource: string, g: GrantId,
                   now: int, accessTtl: nat, refreshTtl: nat)
    requires issue.refresh != Some(issue.access)
    ensures IssuesAsAsked(s, Issued(Pruned(s, now), issue, clientId, scopes, resource, g, now + accessTtl,
                                    now + refreshTtl), issue, clientId, scopes, resource, g, now, accessTtl, refreshTtl)
  {
  }

  lemma RotationSays(s: State, x: Token, clientId: ClientId, resource: string, requested: Option<set<Scope>>,
                     issue: Issue, drawn: GrantId, now: int, accessTtl: nat, refreshTtl: nat, after: State,
                     r: RefreshResult)
    requires RotationResult(Pruned(s, now), x, clientId, resource, requested, issue, drawn, now, accessTtl, refreshTtl,
                            after, r)
    requires issue.refresh != Some(issue.access) && (x in s.tokens ==> x !in PairOf(issue))
    ensures ExchangesAsAsked(s, after, x, clientId, resource, requested, issue, drawn, now, accessTtl, refreshTtl, r)
  {
    if r.Rotated? {
      var current := s.tokens[x];
      var scopes := if requested.Some? then requested.value else current.scopes;
      var g := if current.grantId.Some? then current.grantId.value else drawn;
      assert AsksFor(current, requested, scopes) && InGrant(current, drawn, g);
      assert RotatesTo(s, after, x, issue, scopes, g, now, accessTtl, refreshTtl);
    }
  }

  lemma RevocationSays(s: State, x: Token, clientId: ClientId, now: int)
    ensures RevokesAsAsked(s, AfterRevoke(Pruned(s, now), x, clientId), x, clientId, now)
  {
  }

  // ------------------------------------------------------------------------------------- invariants

  /** What has been handed out, what each grant was given, and which grants are over. */
  datatype History = History(tokens: set<Token>, scopes: map<GrantId, set<Scope>>, dead: set<GrantId>)

  predicate TokenOk(t: StoredToken, h: History) {
    && (t.kind == UsedRefresh ==> t.grantId.Some?)
    && (t.grantId.Some? ==> t.grantId.value in h.scopes && t.scopes <= h.scopes[t.grantId.value])
    && (t.grantId.Some? && t.grantId.value in h.dead ==> t.kind == UsedRefresh)
  }

  /** Of one grant: one refresh token, and no more scopes than any of those used before it. */
  predicate RotationOk(s: State, a: Token, b: Token)
    requires a in s.tokens && b in s.tokens
  {
    s.tokens[a].grantId.Some? && s.tokens[a].grantId == s.tokens[b].grantId && s.tokens[a].kind == Refresh ==>
      && (s.tokens[b].kind == Refresh ==> a == b)
      && (s.tokens[b].kind == UsedRefresh ==> s.tokens[a].scopes <= s.tokens[b].scopes)
  }

  predicate StateOk(s: State, h: History) {
    && s.tokens.Keys <= h.tokens
    && (forall t :: t in s.tokens ==> TokenOk(s.tokens[t], h))
    && (forall a, b :: a in s.tokens && b in s.tokens ==> RotationOk(s, a, b))
  }

  /** Histories only grow. */
  predicate Extends(h: History, k: History) {
    && h.tokens <= k.tokens && h.dead <= k.dead
    && forall g :: g in h.scopes ==> g in k.scopes && k.scopes[g] == h.scopes[g]
  }

  lemma FewerTokensOk(s: State, t: State, h: History)
    requires StateOk(s, h) && t.tokens.Keys <= s.tokens.Keys && forall x :: x in t.tokens ==> t.tokens[x] == s.tokens[x]
    ensures StateOk(t, h)
  {
    forall a, b | a in t.tokens && b in t.tokens ensures RotationOk(t, a, b) { assert RotationOk(s, a, b); }
  }

  lemma KnownToken(s: State, h: History, t: Token)
    requires StateOk(s, h) && t in s.tokens
    ensures t in h.tokens && (s.tokens[t].kind == UsedRefresh ==> s.tokens[t].grantId.Some?)
    ensures s.tokens[t].grantId.Some? ==>
      s.tokens[t].grantId.value in h.scopes && s.tokens[t].scopes <= h.scopes[s.tokens[t].grantId.value]
    ensures s.tokens[t].kind != UsedRefresh && s.tokens[t].grantId.Some? ==> s.tokens[t].grantId.value !in h.dead
  {
    assert TokenOk(s.tokens[t], h);
  }

  /** Once a grant is over it stays so: what is left of it is evidence of used tokens. */
  lemma KillingEnds(s: State, h: History, g: GrantId, keepEvidence: bool)
    requires StateOk(s, h)
    ensures StateOk(Revoked(s, g, keepEvidence), h.(dead := h.dead + {g}))
  {
    FewerTokensOk(s, Revoked(s, g, keepEvidence), h);
  }

  lemma FreshIssueOk(s: State, h: History, issue: Issue, clientId: ClientId, scopes: set<Scope>, resource: string,
                     g: GrantId, accessExpiry: int, refreshExpiry: int)
    requires StateOk(s, h) && g !in h.scopes && g !in h.dead
    ensures StateOk(Issued(s, issue, clientId, scopes, resource, g, accessExpiry, refreshExpiry),
      Handed(h, issue).(scopes := h.scopes[g := scopes]))
    requires IsFresh(h, issue)
  {
  }

  predicate IsFresh(h: History, issue: Issue) {
    && issue.access !in h.tokens
    && (issue.refresh.Some? ==> issue.refresh.value !in h.tokens && issue.refresh.value != issue.access)
  }

  function Handed(h: History, issue: Issue): History {
    h.(tokens := h.tokens + {issue.access} + if issue.refresh.Some? then {issue.refresh.value} else {})
  }

  /** The grant a rotation continues: the token's own, or for a token from before grants a new one. */
  predicate ContinuesGrant(current: StoredToken, g: GrantId, h: History) {
    if current.grantId.Some? then g == current.grantId.value else g !in h.scopes && g !in h.dead
  }

  function WithGrant(h: History, current: StoredToken, g: GrantId): History {
    if current.grantId.Some? then h else h.(scopes := h.scopes[g := current.scopes])
  }

  lemma MarkUsedOk(s: State, h: History, t: Token, g: GrantId)
    requires StateOk(s, h) && t in s.tokens && s.tokens[t].kind == Refresh && ContinuesGrant(s.tokens[t], g, h)
    ensures StateOk(MarkUsed(s, t, g), WithGrant(h, s.tokens[t], g))
    ensures g !in h.dead && g in WithGrant(h, s.tokens[t], g).scopes
    ensures forall x :: x in MarkUsed(s, t, g).tokens && OfGrant(MarkUsed(s, t, g).tokens[x], g) ==>
      MarkUsed(s, t, g).tokens[x].kind != Refresh
        && (MarkUsed(s, t, g).tokens[x].kind == UsedRefresh ==>
           s.tokens[t].scopes <= MarkUsed(s, t, g).tokens[x].scopes)
  {
    var n := MarkUsed(s, t, g);
    assert TokenOk(s.tokens[t], h);
    forall x | x in n.tokens
      ensures TokenOk(n.tokens[x], WithGrant(h, s.tokens[t], g))
    {
      assert TokenOk(s.tokens[x], h);
    }
    forall x | x in n.tokens && OfGrant(n.tokens[x], g)
      ensures n.tokens[x].kind != Refresh
      ensures (n.tokens[x].kind == UsedRefresh ==> s.tokens[t].scopes <= n.tokens[x].scopes)
    {
      if x != t { assert TokenOk(s.tokens[x], h) && RotationOk(s, t, x); }
    }
    forall a, b | a in n.tokens && b in n.tokens ensures RotationOk(n, a, b) {
      if a != t && b != t { assert RotationOk(s, a, b); }
    }
  }

  /** A pair issued in a grant with no live refresh token, within the scopes of every used one. */
  lemma IssueInGrantOk(s: State, h: History, issue: Issue, clientId: ClientId, scopes: set<Scope>, resource: string,
                       g: GrantId, accessExpiry: int, refreshExpiry: int)
    requires StateOk(s, h) && IsFresh(h, issue) && g in h.scopes && g !in h.dead && scopes <= h.scopes[g]
    requires forall x :: x in s.tokens && OfGrant(s.tokens[x], g) ==>
      s.tokens[x].kind != Refresh && (s.tokens[x].kind == UsedRefresh ==> scopes <= s.tokens[x].scopes)
    ensures StateOk(Issued(s, issue, clientId, scopes, resource, g, accessExpiry, refreshExpiry), Handed(h, issue))
  {
    var n := Issued(s, issue, clientId, scopes, resource, g, accessExpiry, refreshExpiry);
    forall a, b | a in n.tokens && b in n.tokens ensures RotationOk(n, a, b) {
      if a in s.tokens && b in s.tokens { assert RotationOk(s, a, b); }
    }
  }

  lemma OlderStateOk(s: State, h: History, k: History)
    requires StateOk(s, h) && Extends(h, k) && k.dead == h.dead
    ensures StateOk(s, k)
  {
    forall x | x in s.tokens ensures TokenOk(s.tokens[x], k) { assert TokenOk(s.tokens[x], h); }
  }

  /** The token cannot be exchanged: it is gone, or kept as evidence of its use. */
  predicate Spent(s: State, t: Token) { t in s.tokens ==> s.tokens[t].kind == UsedRefresh }

  /** A token once handed out and spent, in memory and on file, stays spent. */
  ghost predicate KeepsSpent(h: History, state: State, file: State, nextState: State, nextFile: State) {
    forall t :: t in h.tokens && Spent(state, t) && Spent(file, t) ==> Spent(nextState, t) && Spent(nextFile, t)
  }

  predicate SpendsNone(h: History, s: State, next: State) {
    forall t :: t in h.tokens && Spent(s, t) ==> Spent(next, t)
  }

  lemma IssueSpendsNone(h: History, snapshot: State, s: State, t: Token, issue: Issue, scopes: set<Scope>, g: GrantId,
                        accessExpiry: int, refreshExpiry: int)
    requires SpendsNone(h, snapshot, s) && IsFresh(h, issue) && t in s.tokens
    ensures SpendsNone(h, snapshot, Issued(MarkUsed(s, t, g), issue, s.tokens[t].clientId, scopes, s.tokens[t].resource,
      g, accessExpiry, refreshExpiry))
  {
  }

  // ------------------------------------------------------------------------------------- the store

  class PersistentOAuthStore {
    const accessTtl: nat
    const refreshTtl: nat
    const maxRegisteredClients: nat
    var state: State
    /** The state file: what a restart loads. */
    var file: State
    /** While this holds, writing the state file does not fail. */
    var works: bool
    ghost var history: History

    ghost predicate Valid()
      reads this
    {
      StateOk(state, history) && StateOk(file, history) && history.dead <= history.scopes.Keys
    }

    constructor (file: State, accessTtl: nat, refreshTtl: nat, maxRegisteredClients: nat, ghost history: History)
      requires StateOk(file, history) && history.dead <= history.scopes.Keys
      ensures Valid() && state == file && this.file == file && this.history == history && works
      ensures this.accessTtl == accessTtl && this.refreshTtl == refreshTtl
      ensures this.maxRegisteredClients == maxRegisteredClients
    {
      state, this.file, this.history, works := file, file, history, true;
      this.accessTtl, this.refreshTtl, this.maxRegisteredClients := accessTtl, refreshTtl, maxRegisteredClients;
    }

    /** `persist`: the rename may have happened even if it reports a failure. */
    method Persist() returns (ok: bool)
      modifies this`file
      ensures ok ==> file == state
      ensures file == state || file == old(file)
      ensures works ==> ok
    {
      var reached: bool := *;
      ok := *;
      ok := ok || works;
      if ok || reached { file := state; }
    }

    /** The end of `mutate`: persist, or go back to the snapshot. */
    method Conclude(snapshot: State, ghost next: History, ghost after: History) returns (ok: bool)
      requires StateOk(snapshot, history) && StateOk(file, history)
      requires Extends(history, next) && next.dead == history.dead && StateOk(state, next)
      requires Extends(next, after) && StateOk(state, after) && next.dead <= next.scopes.Keys
      requires after.dead <= after.scopes.Keys
      modifies this`state, this`file, this`history
      ensures Valid() && Extends(old(history), history) && history == (if ok then after else next)
      ensures if ok then state == file == old(state) else state == snapshot && (file == old(file) || file == old(state))
      ensures works ==> ok
    {
      OlderStateOk(snapshot, history, next);
      OlderStateOk(file, history, next);
      ok := Persist();
      history := if ok then after else next;
      if !ok { state := snapshot; }
    }

    /** `issueTokenPair`: a new grant. The random values `issue` and `g` were never handed out before. */
    method IssueTokenPair(clientId: ClientId, scopes: set<Scope>, resource: string, issue: Issue, g: GrantId,
                          now: int) returns (ok: bool)
      requires Valid() && IsFresh(history, issue) && g !in history.scopes
      modifies this`state, this`file, this`history
      ensures Valid() && history == Handed(old(history), issue).(scopes := old(history).scopes[g := scopes])
      ensures state == if ok then Issued(Pruned(old(state), now), issue, clientId, scopes, resource, g, now + accessTtl,
        now + refreshTtl) else old(state)
      ensures ok ==> file == state
      ensures file == old(file)
        || IssuesAsAsked(old(state), file, issue, clientId, scopes, resource, g, now, accessTtl, refreshTtl)
      ensures ok ==>
        IssuesAsAsked(old(state), state, issue, clientId, scopes, resource, g, now, accessTtl, refreshTtl)
      ensures works ==> ok
      ensures KeepsSpent(old(history), old(state), old(file), state, file)
    {
      hide StateOk, Extends, RotationOk, TokenOk, IssuesAsAsked;
      IssuedSays(state, issue, clientId, scopes, resource, g, now, accessTtl, refreshTtl);
      var snapshot := state;
      state := Pruned(state, now);
      FewerTokensOk(snapshot, state, history);
      FreshIssueOk(state, history, issue, clientId, scopes, resource, g, now + accessTtl, now + refreshTtl);
      state := Issued(state, issue, clientId, scopes, resource, g, now + accessTtl, now + refreshTtl);
      ghost var next := Handed(history, issue).(scopes := history.scopes[g := scopes]);
      ok := Conclude(snapshot, next, next);
    }

    /**
      * `rotateRefreshToken`. A live refresh token is exchanged once, for no more than its own scopes. The
      * replay of a used one, while it has not expired, ends its grant. `r` is None when the write failed.
      */
    method RotateRefreshToken(t: Token, clientId: ClientId, resource: string, requested: Option<set<Scope>>,
                              issue: Issue, g: GrantId, now: int)
      returns (r: Option<RefreshResult>)
      requires Valid() && IsFresh(history, issue) && issue.refresh.Some? && g !in history.scopes
      modifies this`state, this`file, this`history
      ensures Valid() && Extends(old(history), history)
      ensures history.tokens <= old(history).tokens + {issue.access, issue.refresh.value}
      ensures history.scopes.Keys <= old(history).scopes.Keys + {g}
      ensures r.None? ==> state == old(state) && history.dead == old(history).dead
      ensures r.Some? ==> file == state
      ensures r.Some? ==>
        RotationResult(Pruned(old(state), now), t, clientId, resource, requested, issue, g, now, accessTtl, refreshTtl,
          state, r.value)
      ensures r.Some? ==>
        ExchangesAsAsked(old(state), state, t, clientId, resource, requested, issue, g, now, accessTtl, refreshTtl,
                         r.value)
      ensures file == old(file)
        || Exchanging(old(state), file, t, clientId, resource, requested, issue, g, now, accessTtl, refreshTtl)
      ensures r.Some? && Replays(Pruned(old(state), now), t, clientId, resource, now) ==>
        Pruned(old(state), now).tokens[t].grantId.value in history.dead
      ensures works ==> r.Some?
      ensures KeepsSpent(old(history), old(state), old(file), state, file)
    {
      hide StateOk, TokenOk, RotationResult, ExchangesAsAsked;
      var snapshot := state;
      ghost var w, intended;
      r, w, intended := Exchange(snapshot, t, clientId, resource, requested, issue, g, now);
      if t in snapshot.tokens { KnownToken(snapshot, old(history), t); }
      RotationSays(snapshot, t, clientId, resource, requested, issue, g, now, accessTtl, refreshTtl, intended, w);
    }

    /** The operation inside `mutate`, and the end of it: `intended` is the state it makes. */
    method Exchange(snapshot: State, t: Token, clientId: ClientId, resource: string, requested: Option<set<Scope>>,
                    issue: Issue, g: GrantId, now: int)
      returns (r: Option<RefreshResult>, ghost w: RefreshResult, ghost intended: State)
      requires Valid() && snapshot == state && IsFresh(history, issue) && issue.refresh.Some? && g !in history.scopes
      modifies this`state, this`file, this`history
      ensures Valid() && Extends(old(history), history)
      ensures history.tokens <= old(history).tokens + {issue.access, issue.refresh.value}
      ensures history.scopes.Keys <= old(history).scopes.Keys + {g}
      ensures RotationResult(Pruned(snapshot, now), t, clientId, resource, requested, issue, g, now, accessTtl,
                             refreshTtl, intended, w)
      ensures r.None? ==> state == snapshot && history.dead == old(history).dead
      ensures r.Some? ==> r.value == w && file == state == intended
      ensures file == old(file) || file == intended
      ensures r.Some? && Replays(Pruned(snapshot, now), t, clientId, resource, now) ==>
        Pruned(snapshot, now).tokens[t].grantId.value in history.dead
      ensures works ==> r.Some?
      ensures KeepsSpent(old(history), snapshot, old(file), state, file)
    {
      hide StateOk, TokenOk;
      state := Pruned(state, now);
      FewerTokensOk(snapshot, state, history);
      intended, w := state, Invalid;
      if !Presentable(state, t, clientId, resource, now) {
        var ok := Conclude(snapshot, history, history);
        r := if ok then Some(Invalid) else None;
        return;
      }
      var current := state.tokens[t];
      KnownToken(state, history, t);
      if current.kind == UsedRefresh {
        intended := Revoked(state, current.grantId.value, true);
        r := Replay(snapshot, current.grantId.value);
        return;
      }
      if current.kind != Refresh {
        var ok := Conclude(snapshot, history, history);
        r := if ok then Some(Invalid) else None;
        return;
      }
      var scopes := if requested.Some? then requested.value else current.scopes;
      if !(scopes <= current.scopes) {
        w := InvalidScope;
        var ok := Conclude(snapshot, history, history);
        r := if ok then Some(InvalidScope) else None;
        return;
      }
      var grant := if current.grantId.Some? then current.grantId.value else g;
      intended := Issued(MarkUsed(state, t, grant), issue, current.clientId, scopes, current.resource, grant,
                         now + accessTtl, now + refreshTtl);
      w := Rotated(issue);
      r := Rotate(snapshot, t, scopes, issue, grant, now);
    }

    method Replay(snapshot: State, g: GrantId) returns (r: Option<RefreshResult>)
      requires StateOk(snapshot, history) && StateOk(file, history) && StateOk(state, history)
      requires history.dead <= history.scopes.Keys && g in history.scopes
      modifies this`state, this`file, this`history
      ensures Valid() && Extends(old(history), history) && history == old(history).(dead := history.dead)
      ensures if r.Some? then r == Some(Invalid) && state == file == Revoked(old(state), g, true) && g in history.dead
              else state == snapshot && history == old(history)
      ensures file == old(file) || file == Revoked(old(state), g, true)
      ensures works ==> r.Some?
      ensures SpendsNone(old(history), snapshot, old(state)) ==>
        KeepsSpent(old(history), snapshot, old(file), state, file)
    {
      KillingEnds(state, history, g, true);
      FewerTokensOk(state, Revoked(state, g, true), history);
      state := Revoked(state, g, true);
      var ok := Conclude(snapshot, history, history.(dead := history.dead + {g}));
      return if ok then Some(Invalid) else None;
    }

    method Rotate(snapshot: State, t: Token, scopes: set<Scope>, issue: Issue, g: GrantId,
                  now: int) returns (r: Option<RefreshResult>)
      requires StateOk(snapshot, history) && StateOk(file, history) && StateOk(state, history)
      requires history.dead <= history.scopes.Keys
      requires t in state.tokens && state.tokens[t].kind == Refresh && scopes <= state.tokens[t].scopes
      requires ContinuesGrant(state.tokens[t], g, history) && IsFresh(history, issue) && issue.refresh.Some?
      modifies this`state, this`file, this`history
      ensures Valid() && history == Handed(WithGrant(old(history), old(state).tokens[t], g), issue)
      ensures if r.Some? then r == Some(Rotated(issue)) && state == file
                && state == Issued(MarkUsed(old(state), t, g), issue, old(state).tokens[t].clientId, scopes,
                   old(state).tokens[t].resource, g, now + accessTtl, now + refreshTtl)
              else state == snapshot
      ensures file == old(file)
        || file == Issued(MarkUsed(old(state), t, g), issue, old(state).tokens[t].clientId, scopes,
                          old(state).tokens[t].resource, g, now + accessTtl, now + refreshTtl)
      ensures works ==> r.Some?
      ensures SpendsNone(old(history), snapshot, old(state)) ==>
        KeepsSpent(old(history), snapshot, old(file), state, file)
    {
      hide StateOk, Extends;
      ghost var pruned := state;
      KnownToken(state, history, t);
      var current := state.tokens[t];
      ghost var granted := WithGrant(history, current, g);
      MarkUsedOk(state, history, t, g);
      state := MarkUsed(state, t, g);
      IssueInGrantOk(state, granted, issue, current.clientId, scopes, current.resource, g, now + accessTtl,
                     now + refreshTtl);
      state := Issued(state, issue, current.clientId, scopes, current.resource, g, now + accessTtl, now + refreshTtl);
      if SpendsNone(history, snapshot, pruned) {
        IssueSpendsNone(history, snapshot, pruned, t, issue, scopes, g, now + accessTtl, now + refreshTtl);
      }
      var ok := Conclude(snapshot, Handed(granted, issue), Handed(granted, issue));
      return if ok then Some(Rotated(issue)) else None;
    }

    /** `registerClient`: at capacity, the oldest clients without tokens make room. */
    method RegisterClient(client: Client, now: int) returns (ok: bool, ghost room: Clients)
      requires Valid()
      modifies this`state, this`file, this`history
      ensures Valid() && history == old(history)
      ensures !ok ==> state == old(state)
      ensures ok ==> RoomMade(old(state).clients, room, Pruned(old(state), now).tokens, maxRegisteredClients)
      ensures ok ==> file == state == State(room[client.clientId := client], Pruned(old(state), now).tokens)
      ensures ok ==> client.clientId in state.clients && state.clients[client.clientId] == client
      ensures ok ==> TokensStay(old(state), state, now)
      ensures file == old(file) || TokensStay(old(state), file, now)
      ensures works && !ok ==>
        |ClientsWithTokens(old(state).clients, Pruned(old(state), now).tokens)| >= maxRegisteredClients
      ensures KeepsSpent(old(history), old(state), old(file), state, file)
    {
      var snapshot := state;
      state := Pruned(state, now);
      FewerTokensOk(snapshot, state, history);
      room := map[];
      var made := MakeRoom(state.clients, state.tokens, maxRegisteredClients);
      if made.None? { state := snapshot; return false, room; }
      room := made.value;
      state := State(made.value[client.clientId := client], state.tokens);
      FewerTokensOk(snapshot, state, history);
      ok := Conclude(snapshot, history, history);
    }

    /** `revoke`. */
    method Revoke(t: Token, clientId: ClientId, now: int) returns (ok: bool)
      requires Valid()
      modifies this`state, this`file, this`history
      ensures Valid() && Extends(old(history), history) && history == old(history).(dead := history.dead)
      ensures !ok ==> state == old(state) && history == old(history)
      ensures ok ==> file == state == AfterRevoke(Pruned(old(state), now), t, clientId)
      ensures ok ==> RevokesAsAsked(old(state), state, t, clientId, now)
      ensures file == old(file) || RevokesAsAsked(old(state), file, t, clientId, now)
      ensures ok && Owns(Pruned(old(state), now), t, clientId) ==> old(state).tokens[t].grantId.value in history.dead
      ensures works ==> ok
      ensures KeepsSpent(old(history), old(state), old(file), state, file)
    {
      var snapshot := state;
      state := Pruned(state, now);
      FewerTokensOk(snapshot, state, history);
      ghost var after := history;
      if t in state.tokens && state.tokens[t].clientId == clientId {
        assert TokenOk(state.tokens[t], history);
        if state.tokens[t].grantId.Some? {
          KillingEnds(state, history, state.tokens[t].grantId.value, false);
          after := history.(dead := history.dead + {state.tokens[t].grantId.value});
        }
      }
      FewerTokensOk(state, AfterRevoke(state, t, clientId), history);
      RevocationSays(snapshot, t, clientId, now);
      state := AfterRevoke(state, t, clientId);
      ok := Conclude(snapshot, history, after);
    }

    /** A new process reads the file. */
    method Restart()
      requires Valid()
      modifies this`state
      ensures Valid() && state == file
      ensures KeepsSpent(old(history), old(state), old(file), state, file)
    {
      state := file;
    }

    /** `getAccessToken`: exactly the live access tokens of registered clients. */
    method GetAccessToken(t: Token, now: int) returns (r: Option<StoredToken>)
      requires Valid()
      ensures r.Some? <==> Accepted(state, t, now)
      ensures r.Some? ==> state.tokens[t] == r.value
      ensures r.Some? && r.value.grantId.Some? ==> r.value.grantId.value !in history.dead
      ensures r.Some? && r.value.grantId.Some? ==> r.value.scopes <= history.scopes[r.value.grantId.value]
    {
      if t !in state.tokens || state.tokens[t].kind != Access || state.tokens[t].expiresAt <= now { return None; }
      if state.tokens[t].clientId !in state.clients { return None; }
      assert TokenOk(state.tokens[t], history);
      return Some(state.tokens[t]);
    }
  }

  function AfterRevoke(s: State, t: Token, clientId: ClientId): State {
    if t !in s.tokens || s.tokens[t].clientId != clientId then s
    else if s.tokens[t].grantId.Some? then Revoked(s, s.tokens[t].grantId.value, false)
    else s.(tokens := s.tokens - {t})
  }

  predicate Replays(s: State, t: Token, clientId: ClientId, resource: string, now: int) {
    Presentable(s, t, clientId, resource, now) && s.tokens[t].kind == UsedRefresh && s.tokens[t].grantId.Some?
  }

  /** What each presentation of a refresh token leads to. */
  predicate RotationResult(s: State, t: Token, clientId: ClientId, resource: string, requested: Option<set<Scope>>,
                           issue: Issue, g: GrantId, now: int, accessTtl: nat, refreshTtl: nat, after: State,
                           r: RefreshResult) {
    if !Presentable(s, t, clientId, resource, now) || s.tokens[t].kind == Access then r == Invalid && after == s
    else if s.tokens[t].kind == UsedRefresh then r == Invalid && s.tokens[t].grantId.Some?
      && after == Revoked(s, s.tokens[t].grantId.value, true)
    else
      var scopes := if requested.Some? then requested.value else s.tokens[t].scopes;
      if !(scopes <= s.tokens[t].scopes) then r == InvalidScope && after == s
      else
        var grant := if s.tokens[t].grantId.Some? then s.tokens[t].grantId.value else g;
        issue.refresh.Some? && r == Rotated(issue)
        && after == Issued(MarkUsed(s, t, grant), issue, clientId, scopes, resource, grant, now + accessTtl,
           now + refreshTtl)
  }

  // ------------------------------------------------------------------------------- room for a client

  type Clients = map<ClientId, Client>

  predicate HasTokens(id: ClientId, tokens: map<Token, StoredToken>) {
    exists t :: t in tokens && tokens[t].clientId == id
  }

  predicate RegisteredBefore(a: Client, b: Client) {
    a.issuedAt < b.issuedAt || (a.issuedAt == b.issuedAt && a.clientId <= b.clientId)
  }

  /** Nobody of those left without tokens was registered before this one. */
  predicate OldestIdle(a: Client, clients: Clients, tokens: map<Token, StoredToken>) {
    forall id :: id in clients && !HasTokens(id, tokens) ==>
      a.issuedAt < clients[id].issuedAt || (a.issuedAt == clients[id].issuedAt && a.clientId <= clients[id].clientId)
  }

  /** Only clients without tokens left, the oldest first. */
  predicate IdleLeft(before: Clients, after: Clients, tokens: map<Token, StoredToken>) {
    && (forall id :: id in after ==> id in before && after[id] == before[id])
    && (forall id :: id in before && id !in after ==> !HasTokens(id, tokens) && OldestIdle(before[id], after, tokens))
  }

  /** And no more of them than needed for one more to fit. */
  predicate RoomMade(before: Clients, after: Clients, tokens: map<Token, StoredToken>, max: nat) {
    && IdleLeft(before, after, tokens) && |after| < max
    && (|before| < max ==> after == before) && (|before| >= max ==> |after| == max - 1)
  }

  /** The registry stays within its bound, and no client with tokens is lost. */
  lemma RegistrationKeepsActiveClients(before: Clients, room: Clients, tokens: map<Token, StoredToken>, max: nat,
                                       client: Client)
    requires RoomMade(before, room, tokens, max)
    ensures |room[client.clientId := client]| <= max
    ensures forall t :: t in tokens && tokens[t].clientId in before ==> tokens[t].clientId in room
  {
    assert room[client.clientId := client].Keys == room.Keys + {client.clientId};
  }

  /** `makeRoomForClientRegistration`. It fails only when the clients with tokens alone fill the registry. */
  method MakeRoom(clients: Clients, tokens: map<Token, StoredToken>, max: nat) returns (r: Option<Clients>)
    ensures r.Some? ==> RoomMade(clients, r.value, tokens, max)
    ensures r.None? ==> |ClientsWithTokens(clients, tokens)| >= max
  {
    var left := clients;
    while |left| >= max
      invariant IdleLeft(clients, left, tokens)
      invariant |clients| < max ==> left == clients
      invariant |clients| >= max ==> |left| >= max - 1
      decreases |left|
    {
      var oldest := FindOldestIdle(left, tokens);
      if oldest.None? {
        OnlyActiveLeft(clients, left, tokens);
        return None;
      }
      assert (left - {oldest.value}).Keys == left.Keys - {oldest.value};
      left := left - {oldest.value};
    }
    return Some(left);
  }

  function ClientsWithTokens(clients: Clients, tokens: map<Token, StoredToken>): set<ClientId> {
    set id | id in clients && HasTokens(id, tokens)
  }

  lemma OnlyActiveLeft(clients: Clients, left: Clients, tokens: map<Token, StoredToken>)
    requires IdleLeft(clients, left, tokens) && forall id :: id in left ==> HasTokens(id, tokens)
    ensures |left| <= |ClientsWithTokens(clients, tokens)|
  {
    SubsetIsSmaller(left.Keys, ClientsWithTokens(clients, tokens));
  }

  lemma {:induction false} SubsetIsSmaller(a: set<ClientId>, b: set<ClientId>)
    requires a <= b
    ensures |a| <= |b|
  {
    if a != {} {
      var x :| x in a;
      SubsetIsSmaller(a - {x}, b - {x});
    }
  }

  method FindOldestIdle(clients: Clients, tokens: map<Token, StoredToken>) returns (r: Option<ClientId>)
    ensures r.None? ==> forall id :: id in clients ==> HasTokens(id, tokens)
    ensures r.Some? ==>
      r.value in clients && !HasTokens(r.value, tokens) && OldestIdle(clients[r.value], clients, tokens)
  {
    r := None;
    var todo := clients.Keys;
    while todo != {}
      invariant todo <= clients.Keys
      invariant r.None? ==> forall id :: id in clients && id !in todo ==> HasTokens(id, tokens)
      invariant r.Some? ==> r.value in clients && !HasTokens(r.value, tokens)
      invariant r.Some? ==>
        forall id :: id in clients && id !in todo && !HasTokens(id, tokens) ==>
          RegisteredBefore(clients[r.value], clients[id])
    {
      var id :| id in todo;
      if !HasTokens(id, tokens) && (r.None? || !RegisteredBefore(clients[r.value], clients[id])) { r := Some(id); }
      todo := todo - {id};
    }
  }

  // -------------------------------------------------------------------------------- any run of it

  datatype Request =
    | Register(client: Client, now: int)
    | Grant(clientId: ClientId, scopes: set<Scope>, resource: string, issue: Issue, g: GrantId, now: int)
    | Present(t: Token, clientId: ClientId, resource: string, requested: Option<set<Scope>>, issue: Issue, g: GrantId,
      now: int)
    | RevokeToken(t: Token, clientId: ClientId, now: int)
    | ProcessRestart

  /** A request, and whether the state file can be written while it is served. */
  datatype Event = Event(request: Request, works: bool)

  datatype Response = Done(ok: bool) | Exchanged(r: Option<RefreshResult>)

  datatype Instant = Instant(state: State, file: State, history: History)

  datatype Limits = Limits(accessTtl: nat, refreshTtl: nat, maxRegisteredClients: nat)

  function TokensOf(q: Request): set<Token> {
    if q.Grant? || q.Present? then {q.issue.access} + (if q.issue.refresh.Some? then {q.issue.refresh.value} else {})
      else {}
  }

  function GrantsOf(q: Request): set<GrantId> { if q.Grant? || q.Present? then {q.g} else {} }

  predicate WellDrawn(q: Request) {
    && ((q.Grant? || q.Present?) && q.issue.refresh.Some? ==> q.issue.refresh.value != q.issue.access)
    && (q.Present? ==> q.issue.refresh.Some?)
  }

  predicate Disjoint(q: Request, p: Request) { TokensOf(q) !! TokensOf(p) && GrantsOf(q) !! GrantsOf(p) }

  /** Random values are never repeated, within an event or across events. */
  predicate RandomValues(events: seq<Event>) {
    && (forall i :: 0 <= i < |events| ==> WellDrawn(events[i].request))
    && (forall i, j :: 0 <= i < j < |events| ==> Disjoint(events[i].request, events[j].request))
  }

  predicate Unused(q: Request, h: History) { TokensOf(q) !! h.tokens && GrantsOf(q) !! h.scopes.Keys }

  predicate Registers(before: Clients, room: Clients, tokens: map<Token, StoredToken>, max: nat, client: Client,
                      after: State) {
    RoomMade(before, room, tokens, max) && after == State(room[client.clientId := client], tokens)
  }

  lemma StillUnused(q: Request, p: Request, h: History, k: History)
    requires Unused(p, h) && Disjoint(q, p) && k.tokens <= h.tokens + TokensOf(q)
    requires k.scopes.Keys <= h.scopes.Keys + GrantsOf(q)
    ensures Unused(p, k)
  {
  }

  /** What each request does; one that fails leaves the state in memory as it was. */
  ghost predicate Does(l: Limits, a: Instant, q: Request, works: bool, r: Response, b: Instant) {
    match q
    case Register(client, now) =>
      var tokens := Pruned(a.state, now).tokens;
      && r.Done? && (works && !r.ok ==> |ClientsWithTokens(a.state.clients, tokens)| >= l.maxRegisteredClients)
      && (!r.ok ==> b.state == a.state)
      && (r.ok ==> b.state == b.file && TokensStay(a.state, b.state, now))
      && (r.ok ==> exists room :: Registers(a.state.clients, room, tokens, l.maxRegisteredClients, client, b.state))
      && (b.file == a.file || TokensStay(a.state, b.file, now))
    case Grant(clientId, scopes, resource, issue, g, now) =>
      && r.Done? && (works ==> r.ok)
      && (!r.ok ==> b.state == a.state)
      && (r.ok ==>
            && b.state == b.file
            && IssuesAsAsked(a.state, b.state, issue, clientId, scopes, resource, g, now, l.accessTtl, l.refreshTtl))
      && (b.file == a.file
          || IssuesAsAsked(a.state, b.file, issue, clientId, scopes, resource, g, now, l.accessTtl, l.refreshTtl))
    case Present(t, clientId, resource, requested, issue, g, now) =>
      && r.Exchanged? && (works ==> r.r.Some?)
      && (r.r.None? ==> b.state == a.state)
      && (r.r.Some? ==>
            && b.state == b.file
            && ExchangesAsAsked(a.state, b.state, t, clientId, resource, requested, issue, g, now, l.accessTtl,
                                l.refreshTtl, r.r.value)
            && (Replays(Pruned(a.state, now), t, clientId, resource, now) ==>
                  a.state.tokens[t].grantId.value in b.history.dead))
      && (b.file == a.file
          || Exchanging(a.state, b.file, t, clientId, resource, requested, issue, g, now, l.accessTtl, l.refreshTtl))
    case RevokeToken(t, clientId, now) =>
      && r.Done? && (works ==> r.ok)
      && (!r.ok ==> b.state == a.state)
      && (r.ok ==>
            && b.state == b.file && RevokesAsAsked(a.state, b.state, t, clientId, now)
            && (Owns(Pruned(a.state, now), t, clientId) ==> a.state.tokens[t].grantId.value in b.history.dead))
      && (b.file == a.file || RevokesAsAsked(a.state, b.file, t, clientId, now))
    case ProcessRestart => r == Done(true) && b.state == b.file == a.file
  }

  ghost predicate Happens(l: Limits, a: Instant, e: Event, r: Response, b: Instant) {
    && StateOk(b.state, b.history) && StateOk(b.file, b.history) && Extends(a.history, b.history)
    && KeepsSpent(a.history, a.state, a.file, b.state, b.file)
    && Does(l, a, e.request, e.works, r, b)
  }

  ghost predicate Chain(l: Limits, events: seq<Event>, responses: seq<Response>, instants: seq<Instant>) {
    && |responses| == |events| && |instants| == |events| + 1
    && forall i :: 0 <= i < |events| ==> Happens(l, instants[i], events[i], responses[i], instants[i + 1])
  }

  ghost function At(store: PersistentOAuthStore): Instant
    reads store
  {
    Instant(store.state, store.file, store.history)
  }

  method Handle(store: PersistentOAuthStore, e: Event, ghost l: Limits) returns (r: Response)
    requires store.Valid() && Unused(e.request, store.history) && WellDrawn(e.request)
    requires l == Limits(store.accessTtl, store.refreshTtl, store.maxRegisteredClients)
    modifies store
    ensures store.Valid() && Happens(l, old(At(store)), e, r, At(store))
    ensures store.history.tokens <= old(store.history).tokens + TokensOf(e.request)
    ensures store.history.scopes.Keys <= old(store.history).scopes.Keys + GrantsOf(e.request)
  {
    hide StateOk, KeepsSpent, RotationResult, ExchangesAsAsked, Exchanging, IssuesAsAsked, RevokesAsAsked, TokensStay,
      Issued, AfterRevoke, RoomMade;
    ghost var a := At(store);
    store.works := e.works;
    match e.request
    case Register(client, now) =>
      var ok;
      ghost var room;
      ok, room := store.RegisterClient(client, now);
      assert ok ==> Registers(a.state.clients, room, Pruned(a.state, now).tokens, l.maxRegisteredClients, client,
        store.state);
      r := Done(ok);
      assert Does(l, a, e.request, e.works, r, At(store));
    case Grant(clientId, scopes, resource, issue, g, now) =>
      var ok := store.IssueTokenPair(clientId, scopes, resource, issue, g, now);
      r := Done(ok);
      assert Does(l, a, e.request, e.works, r, At(store));
    case Present(t, clientId, resource, requested, issue, g, now) =>
      var result := store.RotateRefreshToken(t, clientId, resource, requested, issue, g, now);
      r := Exchanged(result);
      assert Does(l, a, e.request, e.works, r, At(store));
    case RevokeToken(t, clientId, now) =>
      var ok := store.Revoke(t, clientId, now);
      r := Done(ok);
      assert Does(l, a, e.request, e.works, r, At(store));
    case ProcessRestart =>
      store.Restart();
      r := Done(true);
  }

  /** Any run with failed writes and restarts. What follows is proved of the responses it gives. */
  method Run(store: PersistentOAuthStore, events: seq<Event>, ghost l: Limits)
    returns (responses: seq<Response>, ghost instants: seq<Instant>)
    requires store.Valid() && RandomValues(events)
    requires forall i :: 0 <= i < |events| ==> Unused(events[i].request, store.history)
    requires l == Limits(store.accessTtl, store.refreshTtl, store.maxRegisteredClients)
    modifies store
    ensures store.Valid() && Chain(l, events, responses, instants)
    ensures instants[0] == old(At(store)) && instants[|events|] == At(store)
    ensures forall n :: 0 <= n < |events| ==> Unused(events[n].request, instants[n].history)
  {
    hide Happens;
    responses, instants := [], [At(store)];
    for n := 0 to |events|
      invariant store.Valid() && Chain(l, events[..n], responses, instants)
      invariant instants[0] == old(At(store)) && instants[n] == At(store)
      invariant forall i :: n <= i < |events| ==> Unused(events[i].request, store.history)
      invariant forall i :: 0 <= i < n ==> Unused(events[i].request, instants[i].history)
    {
      ghost var h := store.history;
      var r := Handle(store, events[n], l);
      forall i | n < i < |events| ensures Unused(events[i].request, store.history) {
        StillUnused(events[n].request, events[i].request, h, store.history);
      }
      assert events[..n + 1] == events[..n] + [events[n]];
      responses, instants := responses + [r], instants + [At(store)];
    }
    assert events[..|events|] == events;
  }

  // -------------------------------------------------------------------------- what holds of every run

  /** Of a grant that is over no access or refresh token exists. */
  lemma DeadGrantsHaveNoTokens(s: State, h: History, g: GrantId)
    requires StateOk(s, h) && g in h.dead
    ensures NoLiveTokens(s, g)
  {
    forall t | t in s.tokens && OfGrant(s.tokens[t], g)
      ensures s.tokens[t].kind == UsedRefresh
    {
      assert TokenOk(s.tokens[t], h);
    }
  }

  predicate NoLiveTokens(s: State, g: GrantId) {
    forall t :: t in s.tokens && OfGrant(s.tokens[t], g) ==> s.tokens[t].kind == UsedRefresh
  }

  lemma {:induction false} HistoryGrows(l: Limits, events: seq<Event>, responses: seq<Response>, instants: seq<Instant>,
                                        i: nat, j: nat)
    requires Chain(l, events, responses, instants) && i <= j <= |events|
    ensures Extends(instants[i].history, instants[j].history)
    ensures i < j ==> StateOk(instants[j].state, instants[j].history) && StateOk(instants[j].file, instants[j].history)
  {
    if i < j {
      HistoryGrows(l, events, responses, instants, i, j - 1);
      assert Happens(l, instants[j - 1], events[j - 1], responses[j - 1], instants[j]);
    }
  }

  /** The event presented a used refresh token of this grant, unexpired, and was answered. */
  predicate ReplaysIn(a: Instant, e: Event, r: Response, g: GrantId) {
    && e.request.Present? && r.Exchanged? && r.r.Some?
    && Replays(Pruned(a.state, e.request.now), e.request.t, e.request.clientId, e.request.resource, e.request.now)
    && a.state.tokens[e.request.t].grantId == Some(g)
  }

  /** Whatever happens after an answered replay, no token of its grant lives again, in memory or on file. */
  lemma ReplayEndsTheGrant(l: Limits, events: seq<Event>, responses: seq<Response>, instants: seq<Instant>, i: nat,
                           j: nat, g: GrantId)
    requires Chain(l, events, responses, instants) && i < j <= |events|
    requires ReplaysIn(instants[i], events[i], responses[i], g)
    ensures NoLiveTokens(instants[j].state, g) && NoLiveTokens(instants[j].file, g)
  {
    assert Happens(l, instants[i], events[i], responses[i], instants[i + 1]);
    assert g in instants[i + 1].history.dead;
    HistoryGrows(l, events, responses, instants, i, j);
    HistoryGrows(l, events, responses, instants, i + 1, j);
    DeadGrantsHaveNoTokens(instants[j].state, instants[j].history, g);
    DeadGrantsHaveNoTokens(instants[j].file, instants[j].history, g);
  }

  /** The event exchanged this refresh token for a new pair. */
  predicate Rotates(e: Event, r: Response, t: Token) {
    e.request.Present? && e.request.t == t && r.Exchanged? && r.r.Some? && r.r.value.Rotated?
  }

  lemma RotationSpends(l: Limits, a: Instant, e: Event, r: Response, b: Instant, t: Token)
    requires Happens(l, a, e, r, b) && Rotates(e, r, t) && StateOk(a.state, a.history) && Unused(e.request, a.history)
    ensures !Spent(a.state, t)
    ensures Spent(b.state, t) && Spent(b.file, t) && t in b.history.tokens
  {
    assert t in a.history.tokens && t !in TokensOf(e.request);
  }

  lemma {:induction false} SpentForEver(l: Limits, events: seq<Event>, responses: seq<Response>, instants: seq<Instant>,
                                        i: nat, j: nat, t: Token)
    requires Chain(l, events, responses, instants) && i <= j <= |events|
    requires t in instants[i].history.tokens && Spent(instants[i].state, t) && Spent(instants[i].file, t)
    ensures t in instants[j].history.tokens && Spent(instants[j].state, t) && Spent(instants[j].file, t)
  {
    if i < j {
      SpentForEver(l, events, responses, instants, i, j - 1, t);
      assert Happens(l, instants[j - 1], events[j - 1], responses[j - 1], instants[j]);
    }
  }

  /** Over any run, with failed writes and restarts anywhere: no refresh token is exchanged twice. */
  lemma ExchangedOnce(l: Limits, events: seq<Event>, responses: seq<Response>, instants: seq<Instant>, i: nat, j: nat,
                      t: Token)
    requires Chain(l, events, responses, instants) && StateOk(instants[0].state, instants[0].history) && i < |events|
    requires j < |events|
    requires forall k :: 0 <= k < |events| ==> Unused(events[k].request, instants[k].history)
    requires Rotates(events[i], responses[i], t) && Rotates(events[j], responses[j], t)
    ensures i == j
  {
    if i != j {
      var x, y := if i < j then i else j, if i < j then j else i;
      HistoryGrows(l, events, responses, instants, 0, x);
      HistoryGrows(l, events, responses, instants, 0, y);
      RotationSpends(l, instants[x], events[x], responses[x], instants[x + 1], t);
      SpentForEver(l, events, responses, instants, x + 1, y, t);
      RotationSpends(l, instants[y], events[y], responses[y], instants[y + 1], t);
    }
  }

  // -------------------------------------------------------------------------- how long a token lives

  /** The request was answered with a new pair of tokens. */
  predicate HandsOut(q: Request, r: Response) {
    || (q.Grant? && r == Done(true))
    || (q.Present? && r.Exchanged? && r.r.Some? && r.r.value.Rotated?)
  }

  predicate NotAfter(q: Request, now: int) { q.ProcessRestart? || q.now <= now }

  predicate OneGrant(s: State, x: Token, y: Token) {
    || x == y
    || (x in s.tokens && y in s.tokens && s.tokens[x].grantId.Some? && s.tokens[x].grantId == s.tokens[y].grantId)
  }

  /** The request revokes a token of the grant, or replays one, or presents this very token for exchange. */
  predicate Ends(a: Instant, q: Request, x: Token) {
    match q
    case RevokeToken(y, clientId, _) =>
      y in a.state.tokens && a.state.tokens[y].clientId == clientId && OneGrant(a.state, y, x)
    case Present(y, clientId, resource, _, _, _, now) =>
      && IsLive(a.state, y, clientId, resource, now)
      && ((a.state.tokens[y].kind == UsedRefresh && OneGrant(a.state, y, x))
          || (a.state.tokens[y].kind == Refresh && y == x))
    case _ => false
  }

  /** The token is there, in memory and on file, with this content. */
  predicate Holds(a: Instant, x: Token, record: StoredToken) {
    x in a.state.tokens && a.state.tokens[x] == record && x in a.file.tokens && a.file.tokens[x] == record
  }

  predicate HoldsNoOther(a: Instant, x: Token, record: StoredToken) {
    && (x in a.state.tokens ==> a.state.tokens[x] == record)
    && (x in a.file.tokens ==> a.file.tokens[x] == record)
  }

  lemma StepHolds(l: Limits, a: Instant, e: Event, r: Response, b: Instant, x: Token, record: StoredToken)
    requires Happens(l, a, e, r, b) && Unused(e.request, a.history) && x in a.history.tokens
    requires Holds(a, x, record) && !Ends(a, e.request, x)
    requires e.request.ProcessRestart? || e.request.now < record.expiresAt
    ensures Holds(b, x, record)
  {
    hide StateOk, KeepsSpent, Replays, Owns, Registers;
    assert x !in TokensOf(e.request);
  }

  lemma StepHoldsNoOther(l: Limits, a: Instant, e: Event, r: Response, b: Instant, x: Token, record: StoredToken)
    requires Happens(l, a, e, r, b) && Unused(e.request, a.history) && x in a.history.tokens
    requires HoldsNoOther(a, x, record) && record.kind == Access
    ensures HoldsNoOther(b, x, record)
  {
    hide StateOk, KeepsSpent, Replays, Owns, Registers;
    assert x !in TokensOf(e.request);
  }

  lemma {:induction false} HeldUntilEnded(l: Limits, events: seq<Event>, responses: seq<Response>,
                                          instants: seq<Instant>, i: nat, j: nat, x: Token, record: StoredToken)
    requires Chain(l, events, responses, instants) && i <= j <= |events|
    requires forall k :: 0 <= k < |events| ==> Unused(events[k].request, instants[k].history)
    requires x in instants[i].history.tokens && Holds(instants[i], x, record)
    requires forall k :: i <= k < j ==> !Ends(instants[k], events[k].request, x)
    requires forall k :: i <= k < j ==> events[k].request.ProcessRestart? || events[k].request.now < record.expiresAt
    ensures Holds(instants[j], x, record)
  {
    hide Happens, Ends, Holds;
    if i < j {
      HeldUntilEnded(l, events, responses, instants, i, j - 1, x, record);
      HistoryGrows(l, events, responses, instants, i, j - 1);
      StepHolds(l, instants[j - 1], events[j - 1], responses[j - 1], instants[j], x, record);
    }
  }

  lemma {:induction false} NeverAnother(l: Limits, events: seq<Event>, responses: seq<Response>,
                                        instants: seq<Instant>, i: nat, j: nat, x: Token, record: StoredToken)
    requires Chain(l, events, responses, instants) && i <= j <= |events|
    requires forall k :: 0 <= k < |events| ==> Unused(events[k].request, instants[k].history)
    requires x in instants[i].history.tokens && HoldsNoOther(instants[i], x, record) && record.kind == Access
    ensures HoldsNoOther(instants[j], x, record)
  {
    hide Happens, HoldsNoOther;
    if i < j {
      NeverAnother(l, events, responses, instants, i, j - 1, x, record);
      HistoryGrows(l, events, responses, instants, i, j - 1);
      StepHoldsNoOther(l, instants[j - 1], events[j - 1], responses[j - 1], instants[j], x, record);
    }
  }

  /** What was handed out is there. */
  lemma HandedOut(l: Limits, a: Instant, e: Event, r: Response, b: Instant)
    requires Happens(l, a, e, r, b) && HandsOut(e.request, r)
    ensures var q := e.request; var x := q.issue.access;
      && x in b.state.tokens && Holds(b, x, b.state.tokens[x]) && x in b.history.tokens
      && b.state.tokens[x].kind == Access && b.state.tokens[x].clientId == q.clientId
      && b.state.tokens[x].resource == q.resource && b.state.tokens[x].expiresAt == q.now + l.accessTtl
    ensures var q := e.request; q.issue.refresh.Some? ==>
      var x := q.issue.refresh.value;
      && x in b.state.tokens && Holds(b, x, b.state.tokens[x]) && x in b.history.tokens
      && b.state.tokens[x].kind == Refresh && b.state.tokens[x].clientId == q.clientId
      && b.state.tokens[x].resource == q.resource && b.state.tokens[x].expiresAt == q.now + l.refreshTtl
  {
    hide KeepsSpent, Replays, OthersStay;
  }

  /**
    * Over any run, with failed writes and restarts anywhere: until its grant is revoked or replayed, the access
    * token of an answered issue or exchange opens the door for exactly its time to live, while its client is
    * registered.
    */
  lemma AccessTokenLives(l: Limits, events: seq<Event>, responses: seq<Response>, instants: seq<Instant>, i: nat,
                         j: nat, now: int)
    requires Chain(l, events, responses, instants) && i < j <= |events|
    requires forall k :: 0 <= k < |events| ==> Unused(events[k].request, instants[k].history)
    requires HandsOut(events[i].request, responses[i])
    requires forall k :: i < k < j ==> !Ends(instants[k], events[k].request, events[i].request.issue.access)
    requires forall k :: i < k < j ==> NotAfter(events[k].request, now)
    ensures Accepted(instants[j].state, events[i].request.issue.access, now) <==>
      now < events[i].request.now + l.accessTtl && events[i].request.clientId in instants[j].state.clients
  {
    hide Happens, Ends;
    HandedOut(l, instants[i], events[i], responses[i], instants[i + 1]);
    var x := events[i].request.issue.access;
    var record := instants[i + 1].state.tokens[x];
    NeverAnother(l, events, responses, instants, i + 1, j, x, record);
    if now < record.expiresAt { HeldUntilEnded(l, events, responses, instants, i + 1, j, x, record); }
  }

  /** And until then its refresh token is exchanged for its client, for no more than its scopes. */
  lemma RefreshTokenLives(l: Limits, events: seq<Event>, responses: seq<Response>, instants: seq<Instant>, i: nat,
                          j: nat)
    requires Chain(l, events, responses, instants) && i < j < |events|
    requires forall k :: 0 <= k < |events| ==> Unused(events[k].request, instants[k].history)
    requires HandsOut(events[i].request, responses[i]) && events[i].request.issue.refresh.Some?
    requires events[j].works && events[j].request.Present?
    requires var q, p, x := events[i].request, events[j].request, events[i].request.issue.refresh.value;
      && p.t == x && p.clientId == q.clientId && p.resource == q.resource && p.now < q.now + l.refreshTtl
      && (forall k :: i < k < j ==> !Ends(instants[k], events[k].request, x) && NotAfter(events[k].request, p.now))
      && (p.requested.Some? ==>
            && x in instants[i + 1].state.tokens
            && p.requested.value <= instants[i + 1].state.tokens[x].scopes)
    ensures Rotates(events[j], responses[j], events[j].request.t)
  {
    hide Happens, Ends;
    HandedOut(l, instants[i], events[i], responses[i], instants[i + 1]);
    var x := events[i].request.issue.refresh.value;
    HeldUntilEnded(l, events, responses, instants, i + 1, j, x, instants[i + 1].state.tokens[x]);
    LivePresentationRotates(l, instants[j], events[j], responses[j], instants[j + 1]);
  }

  lemma LivePresentationRotates(l: Limits, a: Instant, e: Event, r: Response, b: Instant)
    requires Happens(l, a, e, r, b) && e.works && e.request.Present?
    requires IsLive(a.state, e.request.t, e.request.clientId, e.request.resource, e.request.now)
    requires a.state.tokens[e.request.t].kind == Refresh
    requires e.request.requested.Some? ==> e.request.requested.value <= a.state.tokens[e.request.t].scopes
    ensures Rotates(e, r, e.request.t)
  {
  }

  // -------------------------------------------------------------------------- authorization codes

  datatype CodeRecord = CodeRecord(clientId: ClientId, redirectUri: string, resource: string, scopes: set<Scope>,
                                   expiresAt: int)

  predicate Redeemable(c: CodeRecord, clientId: ClientId, redirectUri: string, resource: string, now: int) {
    c.clientId == clientId && c.redirectUri == redirectUri && c.resource == resource && c.expiresAt > now
  }

  /** The codes of `RemoteDevOAuthProvider`; an exchange awaits the store between its two halves. */
  class AuthorizationCodes {
    var codes: map<nat, CodeRecord>
    /** Exchanges that wait for the store, and codes that have given tokens. */
    ghost var pending: map<nat, CodeRecord>
    ghost var redeemed: set<nat>

    ghost predicate Valid()
      reads this
    {
      codes.Keys !! pending.Keys && codes.Keys !! redeemed && pending.Keys !! redeemed
    }

    constructor ()
      ensures Valid() && codes == map[] && redeemed == {}
    {
      codes, pending, redeemed := map[], map[], {};
    }

    method Prune(now: int)
      requires Valid()
      modifies this`codes
      ensures Valid() && codes == map c | c in old(codes) && old(codes)[c].expiresAt > now :: old(codes)[c]
    {
      codes := map c | c in codes && codes[c].expiresAt > now :: codes[c];
    }

    /** `authorize`, once approved: a random code. */
    method Authorize(code: nat, record: CodeRecord, now: int)
      requires Valid() && code !in codes && code !in pending && code !in redeemed
      modifies this`codes
      ensures Valid() && code in codes && codes[code] == record
      ensures forall c :: c != code ==> (c in codes <==> c in old(codes) && old(codes)[c].expiresAt > now)
      ensures forall c :: c != code && c in codes ==> codes[c] == old(codes)[c]
    {
      Prune(now);
      codes := codes[code := record];
    }

    /** `exchangeAuthorizationCode` up to the await: the code is bound to its client, redirect and resource. */
    method BeginExchange(code: nat, clientId: ClientId, redirectUri: string, resource: string,
                         now: int) returns (r: Option<CodeRecord>)
      requires Valid()
      modifies this`codes, this`pending
      ensures Valid()
      ensures r.Some? ==>
        && code !in old(pending) && code !in redeemed && code in old(codes) && old(codes)[code] == r.value
        && code !in codes
      ensures r.Some? ==> Redeemable(r.value, clientId, redirectUri, resource, now)
      ensures code in old(codes) && Redeemable(old(codes)[code], clientId, redirectUri, resource, now) ==> r.Some?
      ensures r.Some? ==>
        codes == map c | c in old(codes) && c != code && old(codes)[c].expiresAt > now :: old(codes)[c]
      ensures r.None? ==> codes == map c | c in old(codes) && old(codes)[c].expiresAt > now :: old(codes)[c]
      ensures pending == if r.Some? then old(pending)[code := r.value] else old(pending)
    {
      Prune(now);
      if code !in codes || codes[code].clientId != clientId || codes[code].redirectUri != redirectUri
        || codes[code].resource != resource {
        return None;
      }
      r := Some(codes[code]);
      pending := pending[code := codes[code]];
      codes := codes - {code};
    }

    /** And after it: tokens were issued, or the code comes back unless it has expired. */
    method EndExchange(code: nat, record: CodeRecord, issued: bool, now: int)
      requires Valid() && code in pending && pending[code] == record
      modifies this`codes, this`pending, this`redeemed
      ensures Valid() && pending == old(pending) - {code}
      ensures issued ==> code !in old(redeemed) && redeemed == old(redeemed) + {code} && codes == old(codes)
      ensures !issued ==>
        redeemed == old(redeemed) && codes == if record.expiresAt > now then old(codes)[code := record] else old(codes)
    {
      pending := pending - {code};
      if issued {
        redeemed := redeemed + {code};
      } else if record.expiresAt > now && code !in codes {
        codes := codes[code := record];
      }
    }
  }
}
