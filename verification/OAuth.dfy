/**
 * The authorization server's rows and transactions: internal/store/oauth.go. A code is spent, the
 * tokens it replaces are revoked and the token it issues is minted in one transaction, so whatever
 * other requests do in between, a code issues at most one token and a failed exchange changes nothing
 * (section 4.1.3 of RFC 6749).
 *
 * Account rows are not part of this model: an account is its id.
 */
module OAuth {
  import opened Basics

  type Id = nat

  datatype Client = Client(name: string, approved: bool, createdAt: int)

  datatype Code = Code(
    client: Id, account: Id, redirectUri: string, challenge: string, resource: string,
    expiresAt: int, consumed: bool, token: Option<Id>)

  /** `client` is null for a token minted by hand. */
  datatype Token = Token(account: Id, name: string, hash: string, client: Option<Id>, revoked: bool)

  datatype Grants = Grants(clients: map<Id, Client>, codes: map<string, Code>, tokens: map<Id, Token>, nextId: Id)

  datatype NewCode = NewCode(
    hash: string, client: Id, account: Id, redirectUri: string, challenge: string, resource: string, expiresAt: int)

  /** One exchange as the store performs it. */
  datatype ClientGrant = ClientGrant(codeHash: string, account: Id, client: Id, name: string, tokenHash: string)

  datatype Refusal = Invalid | NameTaken | NotFound | Fault

  datatype Action =
    | Register(name: string, now: int)
    | Approve(code: NewCode)
    | Sweep(cutoff: int)
    | Exchange(grant: ClientGrant, now: int)
    | MintByHand(account: Id, name: string, hash: string)
    | Revoke(token: Id)

  // ---- Transactions ----------------------------------------------------------------------------

  function RegisterTx(db: Grants, name: string, now: int): (Grants, Id) {
    (db.(clients := db.clients[db.nextId := Client(name, false, now)], nextId := db.nextId + 1), db.nextId)
  }

  /** The stamp and the code it was stamped for land together. An unknown client fails the foreign key. */
  function ApproveTx(db: Grants, c: NewCode): (Grants, Result<(), Refusal>) {
    if c.client !in db.clients || c.hash in db.codes then (db, Err(Fault))
    else (db.(clients := db.clients[c.client := db.clients[c.client].(approved := true)],
              codes := db.codes[c.hash := Code(c.client, c.account, c.redirectUri, c.challenge, c.resource,
                  c.expiresAt, false, None)]),
          Ok(()))
  }

  predicate Sweepable(c: Client, cutoff: int) {
    !c.approved && c.createdAt < cutoff
  }

  /** Deletes unapproved clients older than the cutoff, and their codes with them. */
  function SweepTx(db: Grants, cutoff: int): Grants {
    var gone := set c | c in db.clients && Sweepable(db.clients[c], cutoff);
    db.(clients := db.clients - gone, codes := map h | h in db.codes && db.codes[h].client !in gone :: db.codes[h])
  }

  predicate Spendable(db: Grants, hash: string, now: int) {
    hash in db.codes && !db.codes[hash].consumed && db.codes[hash].expiresAt > now
  }

  /** Every live token this account holds for this client, revoked. */
  function RevokedFor(tokens: map<Id, Token>, account: Id, client: Id): (r: map<Id, Token>)
    ensures r.Keys == tokens.Keys
  {
    map t | t in tokens ::
      if tokens[t].account == account && tokens[t].client == Some(client) then tokens[t].(revoked := true)
          else tokens[t]
  }

  /** What the partial unique indexes of api_tokens refuse. */
  predicate Collides(tokens: map<Id, Token>, row: Token) {
    exists t :: t in tokens &&
      (tokens[t].hash == row.hash
       || (!tokens[t].revoked && tokens[t].account == row.account
           && (tokens[t].name == row.name || (row.client.Some? && tokens[t].client == row.client))))
  }

  function Minted(g: ClientGrant): Token {
    Token(g.account, g.name, g.tokenHash, Some(g.client), false)
  }

  function ExchangeTx(db: Grants, g: ClientGrant, now: int): (Grants, Result<Id, Refusal>) {
    if !Spendable(db, g.codeHash, now) then (db, Err(Invalid))
    else
      var tokens := RevokedFor(db.tokens, g.account, g.client);
      if Collides(tokens, Minted(g)) then (db, Err(NameTaken))
      else if g.client !in db.clients then (db, Err(Fault))
      else (db.(codes := db.codes[g.codeHash := db.codes[g.codeHash].(consumed := true, token := Some(db.nextId))],
                tokens := tokens[db.nextId := Minted(g)],
                nextId := db.nextId + 1),
            Ok(db.nextId))
  }

  function MintByHandTx(db: Grants, account: Id, name: string, hash: string): (Grants, Result<Id, Refusal>) {
    var row := Token(account, name, hash, None, false);
    if Collides(db.tokens, row) then (db, Err(NameTaken))
    else (db.(tokens := db.tokens[db.nextId := row], nextId := db.nextId + 1), Ok(db.nextId))
  }

  function RevokeTx(db: Grants, token: Id): (Grants, Result<(), Refusal>) {
    if token in db.tokens && !db.tokens[token].revoked
    then (db.(tokens := db.tokens[token := db.tokens[token].(revoked := true)]), Ok(()))
    else (db, Err(NotFound))
  }

  function Apply(db: Grants, a: Action): Grants {
    match a
    case Register(name, now) => RegisterTx(db, name, now).0
    case Approve(code) => ApproveTx(db, code).0
    case Sweep(cutoff) => SweepTx(db, cutoff)
    case Exchange(g, now) => ExchangeTx(db, g, now).0
    case MintByHand(account, name, hash) => MintByHandTx(db, account, name, hash).0
    case Revoke(token) => RevokeTx(db, token).0
  }

  // ---- What holds in every reachable state -----------------------------------------------------

  /** A code is spent exactly when it names the token it issued, to its own account and client. */
  predicate CodeOk(db: Grants, h: string)
    requires h in db.codes
  {
    var c := db.codes[h];
    && c.client in db.clients && db.clients[c.client].approved
    && (c.consumed <==> c.token.Some?)
    && (c.token.Some? ==> c.token.value in db.tokens
                          && db.tokens[c.token.value].account == c.account
                          && db.tokens[c.token.value].client == Some(c.client))
  }

  /** The code that issued a token. */
  predicate Issued(db: Grants, h: string, t: Id) {
    h in db.codes && db.codes[h].token == Some(t)
  }

  predicate CodesOk(db: Grants) {
    forall h | h in db.codes :: CodeOk(db, h)
  }

  predicate IdsOk(db: Grants) {
    && (forall t | t in db.tokens :: t < db.nextId)
    && (forall c | c in db.clients :: c < db.nextId)
  }

  /** Every connector's token was issued by one code and one only. */
  predicate IssuedOnce(db: Grants) {
    && (forall t | t in db.tokens && db.tokens[t].client.Some? :: exists h :: h in db.codes && Issued(db, h, t))
    && (forall h, k | h in db.codes && k in db.codes && db.codes[h].token.Some?
       && db.codes[h].token == db.codes[k].token :: h == k)
  }

  predicate OneLivePerClient(db: Grants) {
    forall t, u | t in db.tokens && u in db.tokens && !db.tokens[t].revoked && !db.tokens[u].revoked
                  && db.tokens[t].client.Some? && db.tokens[t].client == db.tokens[u].client
                  && db.tokens[t].account == db.tokens[u].account :: t == u
  }

  predicate LiveNamesUnique(db: Grants) {
    forall t, u | t in db.tokens && u in db.tokens && !db.tokens[t].revoked && !db.tokens[u].revoked
                  && db.tokens[t].account == db.tokens[u].account && db.tokens[t].name == db.tokens[u].name :: t == u
  }

  predicate Inv(db: Grants) {
    CodesOk(db) && IdsOk(db) && IssuedOnce(db) && OneLivePerClient(db) && LiveNamesUnique(db)
  }

  const EMPTY := Grants(map[], map[], map[], 0)

  /** The exchange takes its account and client from the row it spends. */
  predicate Guard(db: Grants, a: Action) {
    a.Exchange? && a.grant.codeHash in db.codes ==>
      db.codes[a.grant.codeHash].account == a.grant.account && db.codes[a.grant.codeHash].client == a.grant.client
  }

  /** Nothing is taken back: a spent code stays spent with its token, and a revoked token stays revoked. */
  predicate Evolves(a: Grants, b: Grants) {
    && a.nextId <= b.nextId
    && (forall h | h in a.codes ::
          && h in b.codes && b.codes[h] == a.codes[h].(consumed := b.codes[h].consumed, token := b.codes[h].token)
          && (a.codes[h].consumed ==> b.codes[h] == a.codes[h]))
    && (forall t | t in a.tokens ::
          && t in b.tokens && b.tokens[t] == a.tokens[t].(revoked := b.tokens[t].revoked)
          && (a.tokens[t].revoked ==> b.tokens[t].revoked))
  }

  lemma ApproveKeeps(db: Grants, c: NewCode)
    requires Inv(db)
    ensures Inv(ApproveTx(db, c).0) && Evolves(db, ApproveTx(db, c).0)
  {
    var after := ApproveTx(db, c).0;
    forall h | h in after.codes ensures CodeOk(after, h) {
      assert h in db.codes ==> CodeOk(db, h);
    }
    forall t | t in after.tokens && after.tokens[t].client.Some? ensures exists h :: Issued(after, h, t) {
      var h :| h in db.codes && Issued(db, h, t);
      assert Issued(after, h, t);
    }
  }

  /** A code keeps its client approved, so the sweep never takes a code, spent or not. */
  lemma SweepKeeps(db: Grants, cutoff: int)
    requires Inv(db)
    ensures Inv(SweepTx(db, cutoff)) && Evolves(db, SweepTx(db, cutoff))
    ensures SweepTx(db, cutoff).codes == db.codes
  {
    var after := SweepTx(db, cutoff);
    forall h | h in db.codes ensures h in after.codes && CodeOk(after, h) {
      assert CodeOk(db, h);
    }
    assert after.codes == db.codes;
    forall t | t in after.tokens && after.tokens[t].client.Some? ensures exists h :: Issued(after, h, t) {
      var h :| h in db.codes && Issued(db, h, t);
      assert Issued(after, h, t);
    }
  }

  lemma ExchangeCodes(db: Grants, g: ClientGrant, now: int)
    requires Inv(db) && Guard(db, Exchange(g, now)) && ExchangeTx(db, g, now).1.Ok?
    ensures var after := ExchangeTx(db, g, now).0; CodesOk(after) && IdsOk(after) && IssuedOnce(after)
  {
    hide OneLivePerClient, LiveNamesUnique, Collides;
    var after := ExchangeTx(db, g, now).0;
    forall h | h in db.codes ensures CodeOk(after, h) && db.codes[h].token != Some(db.nextId) {
      assert CodeOk(db, h);
    }
    forall t | t in after.tokens && after.tokens[t].client.Some?
        ensures exists h :: h in after.codes && Issued(after, h, t) {
      if t == db.nextId {
        assert Issued(after, g.codeHash, t);
      } else {
        ExchangeIssued(db, g, now, t);
      }
    }
  }

  lemma ExchangeIssued(db: Grants, g: ClientGrant, now: int, t: Id)
    requires Inv(db) && ExchangeTx(db, g, now).1.Ok? && t in db.tokens && db.tokens[t].client.Some?
    ensures exists h :: h in ExchangeTx(db, g, now).0.codes && Issued(ExchangeTx(db, g, now).0, h, t)
  {
    hide OneLivePerClient, LiveNamesUnique, Collides, RevokedFor;
    var h :| h in db.codes && Issued(db, h, t);
    assert CodeOk(db, g.codeHash);
    assert Issued(ExchangeTx(db, g, now).0, h, t);
  }

  /** Revoking only ever leaves fewer live tokens to clash. */
  lemma RevokedLive(db: Grants, account: Id, client: Id)
    requires OneLivePerClient(db) && LiveNamesUnique(db)
    ensures var after := db.(tokens := RevokedFor(db.tokens, account, client));
            OneLivePerClient(after) && LiveNamesUnique(after)
  {
  }

  lemma InsertLive(db: Grants, row: Token, after: Grants)
    requires OneLivePerClient(db) && LiveNamesUnique(db) && db.nextId !in db.tokens && !Collides(db.tokens, row)
    requires after.tokens == db.tokens[db.nextId := row]
    ensures OneLivePerClient(after) && LiveNamesUnique(after)
  {
  }

  lemma ExchangeLive(db: Grants, g: ClientGrant, now: int)
    requires Inv(db) && ExchangeTx(db, g, now).1.Ok?
    ensures var after := ExchangeTx(db, g, now).0; OneLivePerClient(after) && LiveNamesUnique(after)
  {
    hide CodesOk, IssuedOnce, OneLivePerClient, LiveNamesUnique, Collides, RevokedFor;
    RevokedLive(db, g.account, g.client);
    InsertLive(db.(tokens := RevokedFor(db.tokens, g.account, g.client)), Minted(g), ExchangeTx(db, g, now).0);
  }

  lemma ExchangeEvolves(db: Grants, g: ClientGrant, now: int)
    requires Inv(db) && ExchangeTx(db, g, now).1.Ok?
    ensures Evolves(db, ExchangeTx(db, g, now).0)
  {
    hide CodesOk, IssuedOnce, OneLivePerClient, LiveNamesUnique, Collides;
    var after := ExchangeTx(db, g, now).0;
    forall t | t in db.tokens ensures t in after.tokens
        && after.tokens[t] == RevokedFor(db.tokens, g.account, g.client)[t] {}
  }

  lemma TokensKeep(db: Grants, after: Grants)
    requires Inv(db) && after.codes == db.codes && after.clients == db.clients && db.nextId <= after.nextId
    requires forall t | t in db.tokens ::
               t in after.tokens && after.tokens[t].account == db.tokens[t].account
                   && after.tokens[t].client == db.tokens[t].client
    requires forall t | t in after.tokens && after.tokens[t].client.Some? :: t in db.tokens
    requires forall t | t in after.tokens :: t < after.nextId
    ensures CodesOk(after) && IssuedOnce(after) && IdsOk(after)
  {
  }

  lemma ClientsKeep(db: Grants, name: string, now: int)
    requires Inv(db)
    ensures Inv(RegisterTx(db, name, now).0) && Evolves(db, RegisterTx(db, name, now).0)
  {
    var after := RegisterTx(db, name, now).0;
    forall h | h in after.codes ensures CodeOk(after, h) {
      assert CodeOk(db, h);
    }
    forall t | t in after.tokens && after.tokens[t].client.Some? ensures exists h :: Issued(after, h, t) {
      var h :| h in db.codes && Issued(db, h, t);
      assert Issued(after, h, t);
    }
  }

  lemma StepKeeps(db: Grants, a: Action)
    requires Inv(db) && Guard(db, a)
    ensures Inv(Apply(db, a)) && Evolves(db, Apply(db, a))
  {
    hide CodesOk, IssuedOnce, OneLivePerClient, LiveNamesUnique, Evolves, RegisterTx, ApproveTx, SweepTx,
         MintByHandTx, RevokeTx, RevokedFor, Collides;
    EvolvesNow(db);
    match a
    case Register(name, now) => ClientsKeep(db, name, now);
    case Approve(code) => ApproveKeeps(db, code);
    case Sweep(cutoff) => SweepKeeps(db, cutoff);
    case Exchange(g, now) =>
      if ExchangeTx(db, g, now).1.Ok? {
        ExchangeCodes(db, g, now);
        ExchangeLive(db, g, now);
        ExchangeEvolves(db, g, now);
      }
    case MintByHand(account, name, hash) => HandKeeps(db, account, name, hash);
    case Revoke(token) => RevokeKeeps(db, token);
  }

  lemma HandKeeps(db: Grants, account: Id, name: string, hash: string)
    requires Inv(db)
    ensures Inv(MintByHandTx(db, account, name, hash).0) && Evolves(db, MintByHandTx(db, account, name, hash).0)
  {
    hide CodesOk, IssuedOnce, Collides, OneLivePerClient, LiveNamesUnique;
    var after := MintByHandTx(db, account, name, hash).0;
    TokensKeep(db, after);
    if after != db {
      InsertLive(db, Token(account, name, hash, None, false), after);
    }
  }

  lemma RevokeKeeps(db: Grants, token: Id)
    requires Inv(db)
    ensures Inv(RevokeTx(db, token).0) && Evolves(db, RevokeTx(db, token).0)
  {
    hide CodesOk, IssuedOnce;
    TokensKeep(db, RevokeTx(db, token).0);
  }

  // ---- Runs ------------------------------------------------------------------------------------

  function After(acts: seq<Action>): Grants {
    if acts == [] then EMPTY else Apply(After(acts[..|acts| - 1]), acts[|acts| - 1])
  }

  predicate Legal(acts: seq<Action>) {
    acts == [] || (Legal(acts[..|acts| - 1]) && Guard(After(acts[..|acts| - 1]), acts[|acts| - 1]))
  }

  lemma {:induction false} InvOverRuns(acts: seq<Action>)
    requires Legal(acts)
    ensures Inv(After(acts))
  {
    hide Inv, Apply, Guard;
    if acts != [] {
      InvOverRuns(acts[..|acts| - 1]);
      StepKeeps(After(acts[..|acts| - 1]), acts[|acts| - 1]);
    } else {
      EmptyInv();
    }
  }

  lemma EmptyInv()
    ensures Inv(EMPTY)
  {
  }

  lemma Extend(acts: seq<Action>, a: Action)
    requires Legal(acts) && Guard(After(acts), a)
    ensures Legal(acts + [a]) && After(acts + [a]) == Apply(After(acts), a)
  {
  }

  lemma EvolvesTwice(a: Grants, b: Grants, c: Grants)
    requires Evolves(a, b) && Evolves(b, c)
    ensures Evolves(a, c)
  {
  }

  lemma EvolvesNow(db: Grants)
    ensures Evolves(db, db)
  {
  }

  lemma {:induction false} RunEvolves(acts: seq<Action>, from: nat)
    requires Legal(acts) && from <= |acts|
    ensures Legal(acts[..from]) && Evolves(After(acts[..from]), After(acts))
    decreases |acts|
  {
    hide Inv, Apply, Guard, Evolves;
    if from == |acts| {
      assert acts[..from] == acts;
      EvolvesNow(After(acts));
    } else {
      var init := acts[..|acts| - 1];
      RunEvolves(init, from);
      assert init[..from] == acts[..from];
      InvOverRuns(init);
      StepKeeps(After(init), acts[|acts| - 1]);
      EvolvesTwice(After(acts[..from]), After(init), After(acts));
    }
  }

  /** The exchange at position k of a run minted. */
  predicate MintedAt(acts: seq<Action>, k: nat)
    requires k < |acts|
  {
    acts[k].Exchange? && ExchangeTx(After(acts[..k]), acts[k].grant, acts[k].now).1.Ok?
  }

  /** Over every run, a code issues at most one token ever. */
  lemma OneTokenPerCode(acts: seq<Action>, j: nat, k: nat)
    requires Legal(acts) && j < k < |acts| && MintedAt(acts, j) && MintedAt(acts, k)
    ensures acts[j].grant.codeHash != acts[k].grant.codeHash
  {
    hide Inv, Legal;
    assert acts[..k][..j + 1] == acts[..j + 1];
    assert acts[..j + 1][..j] == acts[..j];
    RunEvolves(acts, k);
    RunEvolves(acts[..k], j + 1);
  }

  /** What the token a code issued stays: the one the code names, for its own account and client. */
  lemma TokenOfCode(acts: seq<Action>, k: nat)
    requires Legal(acts) && k < |acts| && MintedAt(acts, k)
    ensures var before, now := After(acts[..k]), After(acts);
            && acts[k].grant.codeHash in now.codes
            && now.codes[acts[k].grant.codeHash].token == Some(before.nextId)
            && before.nextId in now.tokens
            && now.tokens[before.nextId].account == now.codes[acts[k].grant.codeHash].account
            && now.tokens[before.nextId].client == Some(now.codes[acts[k].grant.codeHash].client)
  {
    hide Legal, IssuedOnce, OneLivePerClient, LiveNamesUnique;
    assert acts[..k + 1][..k] == acts[..k];
    RunEvolves(acts, k + 1);
    InvOverRuns(acts);
    assert CodeOk(After(acts), acts[k].grant.codeHash);
  }

  /** Each account holds at most one live token for each client, in every reachable state. */
  lemma OneLiveToken(acts: seq<Action>, t: Id, u: Id)
    requires Legal(acts) && t in After(acts).tokens && u in After(acts).tokens
    requires After(acts).tokens[t].client.Some? && After(acts).tokens[t].client == After(acts).tokens[u].client
    requires After(acts).tokens[t].account == After(acts).tokens[u].account
    requires !After(acts).tokens[t].revoked && !After(acts).tokens[u].revoked
    ensures t == u
  {
    hide CodesOk, IssuedOnce, LiveNamesUnique, Legal;
    InvOverRuns(acts);
  }

  /** A client the sweep will leave alone holds the code it was stamped for. */
  predicate Stamped(db: Grants) {
    forall c | c in db.clients && db.clients[c].approved :: exists h :: h in db.codes && db.codes[h].client == c
  }

  lemma StepStamped(db: Grants, a: Action)
    requires Inv(db) && Guard(db, a) && Stamped(db)
    ensures Stamped(Apply(db, a))
  {
    var after := Apply(db, a);
    StepKeeps(db, a);
    hide Inv, Guard, RevokedFor, Collides;
    forall c | c in after.clients && after.clients[c].approved
        ensures exists h :: h in after.codes && after.codes[h].client == c {
      if c in db.clients && db.clients[c].approved {
        var h :| h in db.codes && db.codes[h].client == c;
        assert h in after.codes && after.codes[h].client == c;
      } else {
        assert a.Approve? && a.code.hash in after.codes && after.codes[a.code.hash].client == c;
      }
    }
  }

  /**
   * No approval ever left half of itself behind: in every reachable state a stamp has its code, and a
   * code its stamp.
   */
  lemma {:induction false} StampAndCodeTogether(acts: seq<Action>)
    requires Legal(acts)
    ensures Stamped(After(acts))
    ensures forall h | h in After(acts).codes ::
              After(acts).codes[h].client in After(acts).clients
                  && After(acts).clients[After(acts).codes[h].client].approved
  {
    hide Guard, Apply, Stamped, IdsOk, IssuedOnce, OneLivePerClient, LiveNamesUnique;
    InvOverRuns(acts);
    forall h | h in After(acts).codes
      ensures After(acts).codes[h].client in After(acts).clients
      ensures After(acts).clients[After(acts).codes[h].client].approved
    {
      assert CodeOk(After(acts), h);
    }
    if acts == [] {
      NothingStamped();
    } else {
      StampAndCodeTogether(acts[..|acts| - 1]);
      InvOverRuns(acts[..|acts| - 1]);
      StepStamped(After(acts[..|acts| - 1]), acts[|acts| - 1]);
    }
  }

  lemma NothingStamped()
    ensures Stamped(EMPTY)
  {
  }

  /**
   * When the exchange mints: exactly when the code is unspent and unexpired at that moment, no other live
   * token of the account for anything but this client has the name, and the secret is new. The index on
   * live client tokens never refuses, and neither does the foreign key; the previous grant's own name is
   * free again. Otherwise nothing changes at all, and the refusal says which it was.
   */
  lemma MintsIff(db: Grants, g: ClientGrant, now: int)
    requires Inv(db) && Guard(db, Exchange(g, now))
    ensures var r := ExchangeTx(db, g, now).1;
            && (r == Err(Invalid) <==>
                  !(g.codeHash in db.codes && !db.codes[g.codeHash].consumed && now < db.codes[g.codeHash].expiresAt))
            && (r.Ok? <==>
                  && g.codeHash in db.codes && !db.codes[g.codeHash].consumed && now < db.codes[g.codeHash].expiresAt
                  && forall t | t in db.tokens ::
                       && db.tokens[t].hash != g.tokenHash
                       && !(!db.tokens[t].revoked && db.tokens[t].account == g.account && db.tokens[t].name == g.name
                            && db.tokens[t].client != Some(g.client)))
            && (r.Err? ==> ExchangeTx(db, g, now).0 == db && r.error in {Invalid, NameTaken})
  {
  }

  /** What a mint puts there: a live token with the grant's name and secret, for the code's own account and client. */
  lemma MintedIsLive(db: Grants, g: ClientGrant, now: int)
    requires Inv(db) && Guard(db, Exchange(g, now)) && ExchangeTx(db, g, now).1.Ok?
    ensures var after, id := ExchangeTx(db, g, now).0, ExchangeTx(db, g, now).1.value;
            && id !in db.tokens && after.tokens.Keys == db.tokens.Keys + {id}
            && var t, code := after.tokens[id], db.codes[g.codeHash];
            && !t.revoked && t.hash == g.tokenHash && t.name == g.name
            && t.account == code.account && t.client == Some(code.client)
            && after.clients == db.clients && after.nextId == db.nextId + 1
            && after.codes == db.codes[g.codeHash := code.(consumed := true, token := Some(id))]
  {
    hide CodesOk, IssuedOnce, OneLivePerClient, LiveNamesUnique, Collides;
  }

  /** The step takes this token back: by name, or by minting its replacement. */
  predicate TakesBack(acts: seq<Action>, k: nat, t: Id, account: Id, client: Id)
    requires k < |acts|
  {
    || acts[k] == Revoke(t)
    || (MintedAt(acts, k) && acts[k].grant.account == account && acts[k].grant.client == client)
  }

  lemma StepTakesBack(db: Grants, a: Action, t: Id, client: Id)
    requires Inv(db) && Guard(db, a) && t in db.tokens && db.tokens[t].client == Some(client)
    ensures t in Apply(db, a).tokens
    ensures Apply(db, a).tokens[t].revoked <==>
              || db.tokens[t].revoked || a == Revoke(t)
              || (a.Exchange? && ExchangeTx(db, a.grant, a.now).1.Ok? && a.grant.account == db.tokens[t].account
                  && a.grant.client == client)
    ensures Apply(db, a).tokens[t] == db.tokens[t].(revoked := Apply(db, a).tokens[t].revoked)
  {
    hide CodesOk, IssuedOnce, OneLivePerClient, LiveNamesUnique, Collides, RevokedFor;
    if a.Exchange? && ExchangeTx(db, a.grant, a.now).1.Ok? {
      MintTouchesOnly(db, a.grant, a.now, t);
    }
  }

  /**
   * Over every run, the token an exchange minted stays as it was minted, and is live until exactly one of
   * two things happens: it is revoked by name, or a later exchange mints for the same account and client.
   */
  lemma {:induction false} LiveUntilTakenBack(acts: seq<Action>, j: nat)
    requires Legal(acts) && j < |acts| && MintedAt(acts, j)
    ensures var t, g := After(acts[..j]).nextId, acts[j].grant;
            && t in After(acts).tokens
            && var row := After(acts).tokens[t];
            && row.account == g.account && row.client == Some(g.client) && row.name == g.name && row.hash == g.tokenHash
            && (row.revoked <==> exists k :: j < k < |acts| && TakesBack(acts, k, t, g.account, g.client))
    decreases |acts|
  {
    hide Inv, Apply, Guard, ExchangeTx;
    var init, last := acts[..|acts| - 1], acts[|acts| - 1];
    var t, g := After(acts[..j]).nextId, acts[j].grant;
    InvOverRuns(init);
    assert acts[..|init|] == init;
    if j == |init| {
      MintedNow(After(init), g, acts[j].now);
    } else {
      assert init[..j] == acts[..j];
      LiveUntilTakenBack(init, j);
      StepTakesBack(After(init), last, t, g.client);
      forall k | j < k < |init| ensures TakesBack(acts, k, t, g.account, g.client) ==
                                        TakesBack(init, k, t, g.account, g.client) {
        assert init[..k] == acts[..k];
      }
      if After(acts).tokens[t].revoked && After(init).tokens[t].revoked {
        var k :| j < k < |init| && TakesBack(init, k, t, g.account, g.client);
        assert TakesBack(acts, k, t, g.account, g.client);
      } else if After(acts).tokens[t].revoked {
        assert TakesBack(acts, |init|, t, g.account, g.client);
      }
    }
  }

  lemma MintedNow(db: Grants, g: ClientGrant, now: int)
    requires Inv(db) && Guard(db, Exchange(g, now)) && ExchangeTx(db, g, now).1.Ok?
    ensures var after := Apply(db, Exchange(g, now));
            && db.nextId in after.tokens
            && after.tokens[db.nextId] == Token(g.account, g.name, g.tokenHash, Some(g.client), false)
  {
    hide Inv;
    MintedIsLive(db, g, now);
  }

  /** What an exchange that mints does to everybody's tokens: revokes the replaced ones, and no other. */
  lemma MintTouchesOnly(db: Grants, g: ClientGrant, now: int, t: Id)
    requires Inv(db) && ExchangeTx(db, g, now).1.Ok? && t in db.tokens
    ensures var after := ExchangeTx(db, g, now).0;
            && t in after.tokens
            && (after.tokens[t] != db.tokens[t] <==>
                  !db.tokens[t].revoked && db.tokens[t].account == g.account && db.tokens[t].client == Some(g.client))
            && (after.tokens[t] != db.tokens[t] ==> after.tokens[t] == db.tokens[t].(revoked := true))
  {
    hide CodesOk, IssuedOnce, OneLivePerClient, LiveNamesUnique, Collides;
    assert ExchangeTx(db, g, now).0.tokens[t] == RevokedFor(db.tokens, g.account, g.client)[t];
  }

  // ---- What the other transactions write -----------------------------------------------------------

  /** An approval is refused exactly for an unknown client or a code already there; else it writes this row. */
  lemma ApproveWrites(db: Grants, c: NewCode)
    ensures ApproveTx(db, c).1.Ok? <==> c.client in db.clients && c.hash !in db.codes
    ensures ApproveTx(db, c).1.Err? ==> ApproveTx(db, c) == (db, Err(Fault))
    ensures ApproveTx(db, c).1.Ok? ==>
              var after := ApproveTx(db, c).0;
              && after.codes.Keys == db.codes.Keys + {c.hash}
              && (forall h | h in db.codes :: after.codes[h] == db.codes[h])
              && var row := after.codes[c.hash];
              && row.client == c.client && row.account == c.account && row.redirectUri == c.redirectUri
              && row.challenge == c.challenge && row.resource == c.resource && row.expiresAt == c.expiresAt
              && !row.consumed && row.token.None?
              && after.clients.Keys == db.clients.Keys && after.clients[c.client].approved
              && after.clients[c.client].name == db.clients[c.client].name
              && (forall x | x in db.clients && x != c.client :: after.clients[x] == db.clients[x])
              && after.tokens == db.tokens && after.nextId == db.nextId
  {
  }

  /** A registration puts in one client, which nobody has approved yet. */
  lemma RegisterWrites(db: Grants, name: string, now: int)
    requires Inv(db)
    ensures var (after, id) := RegisterTx(db, name, now);
            && id !in db.clients && after.clients.Keys == db.clients.Keys + {id}
            && (forall c | c in db.clients :: after.clients[c] == db.clients[c])
            && after.clients[id].name == name && !after.clients[id].approved && after.clients[id].createdAt == now
            && after == db.(clients := after.clients, nextId := db.nextId + 1)
  {
  }

  /** A token is revoked exactly when it is there and live, and no other is touched. */
  lemma RevokesIff(db: Grants, token: Id)
    ensures var (after, r) := RevokeTx(db, token);
            && (r.Ok? <==> token in db.tokens && !db.tokens[token].revoked)
            && (r.Err? ==> after == db && r == Err(NotFound))
            && (r.Ok? ==> && after == db.(tokens := after.tokens) && after.tokens.Keys == db.tokens.Keys
                          && after.tokens[token] == db.tokens[token].(revoked := true)
                          && forall t | t in db.tokens && t != token :: after.tokens[t] == db.tokens[t])
  {
  }

  /** A client goes exactly when nobody ever approved it and it was registered before the cutoff. */
  lemma SweepTakes(db: Grants, cutoff: int, c: Id)
    requires Inv(db) && c in db.clients
    ensures c !in SweepTx(db, cutoff).clients <==> !db.clients[c].approved && db.clients[c].createdAt < cutoff
    ensures c in SweepTx(db, cutoff).clients ==> SweepTx(db, cutoff).clients[c] == db.clients[c]
    ensures SweepTx(db, cutoff).codes == db.codes && SweepTx(db, cutoff).tokens == db.tokens
  {
    SweepKeeps(db, cutoff);
  }

  /** A token minted by hand is live, of no client, and refused exactly for a name or a secret that is taken. */
  lemma HandMints(db: Grants, account: Id, name: string, hash: string)
    requires Inv(db)
    ensures var after, r := MintByHandTx(db, account, name, hash).0, MintByHandTx(db, account, name, hash).1;
            && (r.Ok? <==> forall t | t in db.tokens ::
                  db.tokens[t].hash != hash
                  && !(!db.tokens[t].revoked && db.tokens[t].account == account && db.tokens[t].name == name))
            && (r.Err? ==> after == db && r == Err(NameTaken))
            && (r.Ok? ==> && after == db.(tokens := after.tokens, nextId := db.nextId + 1)
                          && after.tokens.Keys == db.tokens.Keys + {r.value}
                          && (forall t | t in db.tokens :: after.tokens[t] == db.tokens[t])
                          && r.value !in db.tokens && r.value in after.tokens
                          && !after.tokens[r.value].revoked && after.tokens[r.value].client.None?
                          && after.tokens[r.value].account == account && after.tokens[r.value].name == name
                          && after.tokens[r.value].hash == hash)
  {
  }
}
