/**
 * The code exchange as the token endpoint runs it: internal/identity/oauthgrant.go over the
 * transactions of internal/store/oauth.go. Between any two store calls of one request the other
 * requests, approvals, sweeps, revocations and hand mints run freely.
 */
module OAuthGrant {
  import opened Basics
  import opened OAuth
  import opened Text

  /** One committed transaction, and whether a request of this service made it. */
  datatype Step = Step(own: bool, action: Action)

  function Actions(steps: seq<Step>): seq<Action> {
    seq(|steps|, i requires 0 <= i < |steps| => steps[i].action)
  }

  /** The transactions of this service's own requests that changed a row, in order. */
  function Own(steps: seq<Step>): seq<Action> {
    if steps == [] then []
    else
      var init, last := steps[..|steps| - 1], steps[|steps| - 1];
      var db := After(Actions(init));
      if last.own && Apply(db, last.action) != db then Own(init) + [last.action] else Own(init)
  }

  /**
   * The platform's database as the OAuth routes see it, statement by statement. Every transaction is
   * entered in the journal by the method that runs it: as the service's own, unless it is somebody
   * else's, which is what Perform runs.
   */
  class GrantStore {
    var db: Grants
    ghost var journal: seq<Step>

    constructor ()
      ensures db == EMPTY && journal == []
    {
      db, journal := EMPTY, [];
    }

    /** Spends a code and mints the token it issued, in one transaction that any refusal rolls back. */
    method GrantClientToken(g: ClientGrant, now: int) returns (r: Result<Id, Refusal>)
      modifies this
      ensures (db, r) == ExchangeTx(old(db), g, now)
      ensures r.Ok? ==> && r.value in db.tokens && !db.tokens[r.value].revoked
                        && db.tokens[r.value].hash == g.tokenHash && db.tokens[r.value].name == g.name
                        && db.tokens[r.value].account == g.account && db.tokens[r.value].client == Some(g.client)
      ensures journal == old(journal) + [Step(true, Exchange(g, now))]
    {
      journal := journal + [Step(true, Exchange(g, now))];
      var before := db;
      if g.codeHash !in db.codes || db.codes[g.codeHash].consumed || db.codes[g.codeHash].expiresAt <= now {
        return Err(Invalid);
      }
      db := db.(codes := db.codes[g.codeHash := db.codes[g.codeHash].(consumed := true)]);
      db := db.(tokens := RevokedFor(db.tokens, g.account, g.client));
      var row := Token(g.account, g.name, g.tokenHash, Some(g.client), false);
      if Collides(db.tokens, row) {
        db := before;
        return Err(NameTaken);
      }
      if g.client !in db.clients {
        db := before;
        return Err(Fault);
      }
      var id := db.nextId;
      db := db.(tokens := db.tokens[id := row], nextId := id + 1);
      ghost var spent := before.codes[g.codeHash].(consumed := true);
      db := db.(codes := db.codes[g.codeHash := db.codes[g.codeHash].(token := Some(id))]);
      assert before.codes[g.codeHash := spent][g.codeHash := spent.(token := Some(id))]
          == before.codes[g.codeHash := spent.(token := Some(id))];
      r := Ok(id);
    }

    /** Stamps the client approved and writes the code it was stamped for, or neither. */
    method ApproveClientAndCreateCode(c: NewCode) returns (r: Result<(), Refusal>)
      modifies this
      ensures (db, r) == ApproveTx(old(db), c)
      ensures journal == old(journal) + [Step(true, Approve(c))]
    {
      journal := journal + [Step(true, Approve(c))];
      var before := db;
      if c.client in db.clients && !db.clients[c.client].approved {
        db := db.(clients := db.clients[c.client := db.clients[c.client].(approved := true)]);
      }
      if c.client !in db.clients || c.hash in db.codes {
        db := before;
        return Err(Fault);
      }
      assert db.clients == before.clients[c.client := before.clients[c.client].(approved := true)];
      db := db.(codes := db.codes[
                  c.hash := Code(c.client, c.account, c.redirectUri, c.challenge, c.resource, c.expiresAt, false,
                      None)]);
      r := Ok(());
    }

    method RevokeToken(token: Id) returns (r: Result<(), Refusal>)
      modifies this
      ensures (db, r) == RevokeTx(old(db), token)
      ensures journal == old(journal) + [Step(true, Revoke(token))]
    {
      journal := journal + [Step(true, Revoke(token))];
      if token !in db.tokens || db.tokens[token].revoked {
        return Err(NotFound);
      }
      db := db.(tokens := db.tokens[token := db.tokens[token].(revoked := true)]);
      r := Ok(());
    }

    /** Somebody else's transaction. */
    method Perform(a: Action)
      modifies this
      ensures db == Apply(old(db), a) && journal == old(journal) + [Step(false, a)]
    {
      match a {
        case Register(name, now) => db := RegisterTx(db, name, now).0;
        case Approve(code) => var _ := ApproveClientAndCreateCode(code);
        case Sweep(cutoff) => db := SweepTx(db, cutoff);
        case Exchange(g, now) => var _ := GrantClientToken(g, now);
        case MintByHand(account, name, hash) => db := MintByHandTx(db, account, name, hash).0;
        case Revoke(token) => var _ := RevokeToken(token);
      }
      journal := old(journal) + [Step(false, a)];
    }
  }

  /** A token endpoint call, already parsed. An absent resource takes the code's own. */
  datatype Request = Request(client: Id, code: string, redirectUri: string, verifier: string, resource: string)

  datatype Failure = GrantInvalid | Unavailable

  const GRANT_NAME_ATTEMPTS := 50

  class Service {
    const store: GrantStore
    /** The secret hash and the S256 challenge of section 4.6 of RFC 7636, as uninterpreted functions. */
    const hash: string -> string
    const s256: string -> string
    /** What becomes of the k-th call to the store, and whether an account read by it may be granted a token. */
    const reach: nat -> Fate
    const fit: nat -> bool
    var asked: nat
    var now: int

    constructor (store: GrantStore, hash: string -> string, s256: string -> string, reach: nat -> Fate,
        fit: nat -> bool,
                 now: int)
      requires store.db == EMPTY && store.journal == []
      ensures Valid() && this.store == store && this.hash == hash && this.s256 == s256
      ensures this.reach == reach && this.fit == fit && asked == 0
    {
      this.store, this.hash, this.s256, this.reach, this.fit, this.now := store, hash, s256, reach, fit, now;
      this.asked := 0;
    }

    /** The rows are what the journal's transactions make of an empty database. */
    ghost predicate Valid()
      reads this, store
    {
      Legal(Actions(store.journal)) && store.db == After(Actions(store.journal))
    }

    /** Some call from this one on was not answered, or found an account that may not be granted a token. */
    ghost predicate Hindered(from: nat)
      reads this`asked
    {
      exists k :: from <= k < asked && (reach(k) != Heard || !fit(k))
    }

    /** At some moment since, the code could not have been exchanged for this request. */
    ghost predicate Unfit(req: Request, early: nat, clock: int)
      reads this, store
    {
      exists n, at :: early <= n <= |store.journal| && clock <= at <= now
                      && Refusable(After(Actions(store.journal[..n])), req, at)
    }

    ghost predicate Refusable(db: Grants, req: Request, at: int) {
      hash(req.code) in db.codes ==>
        var code := db.codes[hash(req.code)];
        || code.consumed || code.client != req.client || code.redirectUri != req.redirectUri || code.expiresAt <= at
        || (req.resource != "" && req.resource != code.resource) || !VerifyPKCE(code.challenge, req.verifier)
    }

    lemma UnfitAt(req: Request, early: nat, clock: int, n: nat, at: int)
      requires early <= n <= |store.journal| && clock <= at <= now
      requires Refusable(After(Actions(store.journal[..n])), req, at)
      ensures Unfit(req, early, clock)
    {
    }

    lemma HinderedAt(from: nat, k: nat)
      requires from <= k < asked && (reach(k) != Heard || !fit(k))
      ensures Hindered(from)
    {
    }

    /** What makes a code no good for a request, in the row's own fields. */
    lemma RefusableMeans(db: Grants, req: Request, at: int)
      ensures !Refusable(db, req, at) <==>
                && hash(req.code) in db.codes
                && var code := db.codes[hash(req.code)];
                && !code.consumed && at < code.expiresAt && code.client == req.client
                && code.redirectUri == req.redirectUri && (req.resource == "" || req.resource == code.resource)
                && req.verifier != "" && code.challenge != "" && s256(req.verifier) == code.challenge
    {
    }

    lemma RefusableNow(req: Request, db: Grants, at: int)
      requires hash(req.code) in db.codes ==>
                 var code := db.codes[hash(req.code)];
                 || code.consumed || code.client != req.client || code.redirectUri != req.redirectUri
                    || code.expiresAt <= at
                 || (req.resource != "" && req.resource != code.resource) || !VerifyPKCE(code.challenge, req.verifier)
      ensures Refusable(db, req, at)
    {
    }

    /** One call to the store: what becomes of it is not the service's to say. */
    method Reach() returns (fate: Fate, fits: bool)
      modifies this`asked
      ensures asked == old(asked) + 1 && fate == reach(old(asked)) && fits == fit(old(asked))
    {
      fate, fits := reach(asked), fit(asked);
      asked := asked + 1;
    }

    predicate VerifyPKCE(challenge: string, verifier: string) {
      challenge != "" && verifier != "" && s256(verifier) == challenge
    }

    lemma Consistent()
      requires Valid()
      ensures Inv(store.db)
    {
      hide Inv, Legal, After;
      InvOverRuns(Actions(store.journal));
    }

    /** One transaction committed, by this request or by somebody else. */
    lemma Committed(a: Action, mine: bool)
      requires Valid() && Guard(store.db, a)
      ensures var steps := store.journal + [Step(mine, a)];
              && Legal(Actions(steps)) && After(Actions(steps)) == Apply(store.db, a)
              && Own(steps) == Own(store.journal) + (if mine && Apply(store.db, a) != store.db then [a] else [])
      ensures Inv(store.db) && Inv(Apply(store.db, a)) && Evolves(store.db, Apply(store.db, a))
    {
      hide Inv, Legal, After, Guard, Evolves, Apply;
      Consistent();
      Extend(Actions(store.journal), a);
      StepKeeps(store.db, a);
      var steps := store.journal + [Step(mine, a)];
      assert Actions(steps) == Actions(store.journal) + [a];
      assert steps[..|steps| - 1] == store.journal;
    }

    /** Everybody else, between two calls of one request. */
    method Others()
      requires Valid()
      modifies this`now, store
      ensures Valid() && Inv(store.db) && old(now) <= now && Evolves(old(store.db), store.db)
      ensures old(store.journal) <= store.journal && Own(store.journal) == Own(old(store.journal))
    {
      hide Inv, Legal, After, Guard, Evolves, Apply, Own;
      Consistent();
      EvolvesNow(store.db);
      var elapsed: nat, turns: nat := *, *;
      now := now + elapsed;
      while turns > 0
        invariant Valid() && Inv(store.db) && Evolves(old(store.db), store.db) && old(now) <= now
        invariant old(store.journal) <= store.journal && Own(store.journal) == Own(old(store.journal))
      {
        var a: Action := *;
        if Guard(store.db, a) {
          Committed(a, false);
          EvolvesTwice(old(store.db), store.db, Apply(store.db, a));
          store.Perform(a);
        }
        turns := turns - 1;
      }
    }

    /**
     * Exchanges a code for a token. A granted request spent this very code once, with everything the
     * row holds matched, and minted one token for the row's own account and client. A request refused as
     * invalid met a code that could not be exchanged for it, and changed no row at all, unless it replayed a
     * spent code with a verifier that does not produce the stored challenge, and then all it may have
     * changed is the one token that code issued. A request that fails otherwise was hindered, or ran out of
     * names, and changed nothing but, when its answer was what got lost, its own code's one exchange.
     */
    method Grant(req: Request) returns (r: Result<Id, Failure>)
      requires Valid()
      modifies this`now, this`asked, store
      ensures Valid() && Inv(store.db) && Evolves(old(store.db), store.db) && old(store.journal) <= store.journal
      ensures match r
              case Ok(token) =>
                && hash(req.code) in store.db.codes
                && var code := store.db.codes[hash(req.code)];
                && code.client == req.client && code.redirectUri == req.redirectUri
                && (req.resource == "" || req.resource == code.resource)
                && req.verifier != "" && code.challenge != "" && s256(req.verifier) == code.challenge
                && old(now) < code.expiresAt
                && code.consumed && code.token == Some(token)
                && token in store.db.tokens && !store.db.tokens[token].revoked
                && store.db.tokens[token].account == code.account && store.db.tokens[token].client == Some(code.client)
                && (hash(req.code) in old(store.db).codes ==> !old(store.db).codes[hash(req.code)].consumed)
                && Exchanged(Own(old(store.journal)), Own(store.journal), hash(req.code), code)
              case Err(GrantInvalid) =>
                && Unfit(req, |old(store.journal)|, old(now))
                && (|| Own(store.journal) == Own(old(store.journal))
                    || (&& hash(req.code) in store.db.codes
                        && var code := store.db.codes[hash(req.code)];
                        && code.consumed && !VerifyPKCE(code.challenge, req.verifier)
                        && code.token.Some?
                        && Own(store.journal) == Own(old(store.journal)) + [Revoke(code.token.value)]))
              case Err(Unavailable) =>
                && (Hindered(old(asked)) || old(asked) + GRANT_NAME_ATTEMPTS <= asked)
                && (|| Own(store.journal) == Own(old(store.journal))
                    || (&& Hindered(old(asked)) && hash(req.code) in store.db.codes
                        && var code := store.db.codes[hash(req.code)];
                        && code.client == req.client && VerifyPKCE(code.challenge, req.verifier)
                        && Exchanged(Own(old(store.journal)), Own(store.journal), hash(req.code), code)))
    {
      hide Inv, Legal, After, Guard, Evolves, ExchangeTx, RevokeTx, Own, Exchanged, Unfit, Refusable, Hindered,
           VerifyPKCE;
      var codeHash := hash(req.code);
      Others();
      ghost var n, read, at := |store.journal|, store.db, now;
      assert store.journal[..n] == store.journal;
      var fate, fits := Reach();
      if fate != Heard {
        HinderedAt(old(asked), old(asked));
        return Err(Unavailable);
      }
      if codeHash !in store.db.codes {
        RefusableNow(req, read, now);
        UnfitAt(req, |old(store.journal)|, old(now), n, now);
        return Err(GrantInvalid);
      }
      var code := store.db.codes[codeHash];
      CodeKept(old(store.db), read, codeHash);
      if code.consumed {
        RefusableNow(req, read, now);
        if !VerifyPKCE(code.challenge, req.verifier) {
          ghost var early := store.journal;
          RevokeReplayed(codeHash, code);
          assert store.journal[..n] == early;
          EvolvesTwice(old(store.db), read, store.db);
          CodeKept(read, store.db, codeHash);
        }
        UnfitAt(req, |old(store.journal)|, old(now), n, at);
        return Err(GrantInvalid);
      }
      if code.client != req.client || code.redirectUri != req.redirectUri || !(now < code.expiresAt)
         || (req.resource != "" && req.resource != code.resource) || !VerifyPKCE(code.challenge, req.verifier) {
        RefusableNow(req, read, now);
        UnfitAt(req, |old(store.journal)|, old(now), n, now);
        return Err(GrantInvalid);
      }
      ghost var begun := asked;
      r := Mint(codeHash, code, req, |old(store.journal)|, old(now));
      EvolvesTwice(old(store.db), read, store.db);
      CodeKept(read, store.db, codeHash);
      Verified(code.challenge, req.verifier);
      HinderedSince(old(asked), begun);
      SameCode(Own(old(store.journal)), Own(store.journal), codeHash, code);
    }

    lemma Verified(challenge: string, verifier: string)
      ensures VerifyPKCE(challenge, verifier) <==> challenge != "" && verifier != "" && s256(verifier) == challenge
    {
    }

    lemma HinderedSince(early: nat, from: nat)
      requires early <= from
      ensures Hindered(from) ==> Hindered(early)
    {
    }

    /** Best effort: whatever comes of it, the exchange is refused just the same. */
    method RevokeReplayed(codeHash: string, code: Code)
      requires Valid() && codeHash in store.db.codes && store.db.codes[codeHash] == code && code.consumed
      modifies this`now, this`asked, store
      ensures Valid() && Inv(store.db) && Evolves(old(store.db), store.db) && old(store.journal) <= store.journal
      ensures old(now) <= now && old(asked) <= asked
      ensures || Own(store.journal) == Own(old(store.journal))
              || (code.token.Some? && Own(store.journal) == Own(old(store.journal)) + [Revoke(code.token.value)])
      ensures code.token.Some? ==> asked == old(asked) + 1
      ensures code.token.Some? && reach(old(asked)) != Lost ==>
                code.token.value in store.db.tokens && store.db.tokens[code.token.value].revoked
    {
      hide Inv, Legal, After, Guard, Evolves, RevokeTx, Own;
      EvolvesNow(store.db);
      Consistent();
      if code.token.None? {
        return;
      }
      Others();
      var fate, fits := Reach();
      IssuedToken(store.db, old(store.db), codeHash, code.token.value);
      if fate == Lost {
        return;
      }
      ghost var a := Revoke(code.token.value);
      RevokeUnguarded(store.db, code.token.value);
      Committed(a, true);
      EvolvesTwice(old(store.db), store.db, Apply(store.db, a));
      RevokeOutcome(store.db, code.token.value);
      var _ := store.RevokeToken(code.token.value);
    }

    /** The exchange proper: the token under the first name that is free, or a refusal. */
    method Mint(codeHash: string, code: Code, ghost req: Request, ghost early: nat,
                ghost clock: int) returns (r: Result<Id, Failure>)
      requires Valid() && codeHash in store.db.codes && store.db.codes[codeHash] == code && !code.consumed
      requires codeHash == hash(req.code) && early <= |store.journal| && clock <= now
      modifies this`now, this`asked, store
      ensures Valid() && Inv(store.db) && Evolves(old(store.db), store.db) && old(store.journal) <= store.journal
      ensures old(asked) <= asked
      ensures r == Err(GrantInvalid) ==> Unfit(req, early, clock) && Own(store.journal) == Own(old(store.journal))
      ensures r == Err(Unavailable) ==>
                && (Hindered(old(asked)) || old(asked) + GRANT_NAME_ATTEMPTS <= asked)
                && (|| Own(store.journal) == Own(old(store.journal))
                    || (Hindered(old(asked)) && Exchanged(Own(old(store.journal)), Own(store.journal), codeHash, code)))
      ensures r.Ok? ==> && codeHash in store.db.codes
                        && store.db.codes[codeHash] == code.(consumed := true, token := Some(r.value))
                        && LiveFor(store.db, r.value, code)
                        && Exchanged(Own(old(store.journal)), Own(store.journal), codeHash, code)
    {
      hide Inv, Legal, After, Guard, Evolves, ExchangeTx, Own, Exchanged, Unfit, Refusable, Hindered, Apply;
      ghost var asked0, known := asked, store.db;
      Others();
      // The account and client reads, the gate on the account, and the fresh secret.
      var fate, fits := Reach();
      if fate != Heard || !fits {
        HinderedAt(asked0, asked0);
        return Err(Unavailable);
      }
      var base: string, secret: string := *, *;
      var attempt := 0;
      while attempt < GRANT_NAME_ATTEMPTS
        invariant 0 <= attempt <= GRANT_NAME_ATTEMPTS && asked0 + attempt < asked
        invariant Valid() && Inv(store.db) && Evolves(known, store.db) && clock <= now
        invariant old(store.journal) <= store.journal && Own(store.journal) == Own(old(store.journal))
      {
        var name := if attempt > 0 then base + " (" + Decimal(attempt + 1) + ")" else base;
        ghost var m, k := store.db, asked;
        var answer;
        fate, answer := Try(codeHash, code, name, hash(secret), known);
        EvolvesTwice(known, m, store.db);
        if fate != Heard {
          HinderedAt(asked0, k);
          return Err(Unavailable);
        }
        if answer.Ok? {
          return Ok(answer.value);
        }
        if answer == Err(Invalid) {
          ghost var n := |store.journal|;
          assert store.journal[..n] == store.journal;
          RefusableNow(req, store.db, now);
          UnfitAt(req, early, clock, n, now);
          return Err(GrantInvalid);
        }
        attempt := attempt + 1;
      }
      r := Err(Unavailable);
    }

    /** One exchange under one name, whatever becomes of the call. */
    method Try(codeHash: string, code: Code, name: string, secretHash: string,
               ghost known: Grants) returns (fate: Fate, answer: Result<Id, Refusal>)
      requires Valid() && Inv(store.db) && Evolves(known, store.db) && codeHash in known.codes
      requires known.codes[codeHash] == code
      modifies this`now, this`asked, store
      ensures Valid() && Inv(store.db) && Evolves(old(store.db), store.db) && old(store.journal) <= store.journal
      ensures old(now) <= now && asked == old(asked) + 1 && fate == reach(old(asked)) && codeHash in store.db.codes
      ensures fate != Lost && answer.Ok? ==>
                && store.db.codes[codeHash] == code.(consumed := true, token := Some(answer.value))
                && LiveFor(store.db, answer.value, code)
                && Exchanged(Own(old(store.journal)), Own(store.journal), codeHash, code)
      ensures fate == Lost || answer.Err? ==> Own(store.journal) == Own(old(store.journal))
      ensures fate != Lost && answer.Err? ==> answer.error in {Invalid, NameTaken}
      ensures fate != Lost && answer == Err(Invalid) ==>
                store.db.codes[codeHash].consumed || store.db.codes[codeHash].expiresAt <= now
    {
      hide Inv, Legal, After, Guard, Evolves, ExchangeTx, Own, Apply;
      ghost var m := store.db;
      Others();
      EvolvesTwice(known, m, store.db);
      CodeKept(known, store.db, codeHash);
      var fits;
      fate, fits := Reach();
      if fate == Lost {
        return fate, Err(Fault);
      }
      var g := ClientGrant(codeHash, code.account, code.client, name, secretHash);
      ExchangeGuard(known, store.db, g, now);
      Committed(Exchange(g, now), true);
      ApplyExchange(store.db, g, now);
      EvolvesTwice(m, store.db, Apply(store.db, Exchange(g, now)));
      ExchangeOutcome(store.db, g, now);
      CodeConsumed(known, store.db, codeHash);
      answer := store.GrantClientToken(g, now);
    }
  }

  /** All that was added is one exchange of this code, for the account and the client it was issued to. */
  ghost predicate Exchanged(before: seq<Action>, after: seq<Action>, codeHash: string, code: Code) {
    exists g, at :: after == before + [Exchange(g, at)] && g.codeHash == codeHash
                    && g.account == code.account && g.client == code.client
  }

  /** A live token of the code's own account and client. */
  predicate LiveFor(db: Grants, token: Id, code: Code) {
    && token in db.tokens && !db.tokens[token].revoked
    && db.tokens[token].account == code.account && db.tokens[token].client == Some(code.client)
  }

  lemma ApplyExchange(db: Grants, g: ClientGrant, now: int)
    ensures Apply(db, Exchange(g, now)) == ExchangeTx(db, g, now).0
  {
  }

  lemma CodeConsumed(a: Grants, b: Grants, h: string)
    requires Evolves(a, b) && h in a.codes
    ensures h in b.codes && b.codes[h] == a.codes[h].(consumed := b.codes[h].consumed, token := b.codes[h].token)
  {
  }

  /** An exchange is of this code however often its row was written. */
  lemma SameCode(before: seq<Action>, after: seq<Action>, codeHash: string, code: Code)
    ensures forall c: Code | c.account == code.account && c.client == code.client ::
              Exchanged(before, after, codeHash, code) ==> Exchanged(before, after, codeHash, c)
  {
  }

  lemma IssuedToken(db: Grants, early: Grants, h: string, token: Id)
    requires Evolves(early, db) && h in early.codes && early.codes[h].consumed && early.codes[h].token == Some(token)
    requires Inv(db)
    ensures token in db.tokens
  {
    assert CodeOk(db, h);
  }

  lemma RevokeOutcome(db: Grants, token: Id)
    requires token in db.tokens
    ensures token in RevokeTx(db, token).0.tokens && RevokeTx(db, token).0.tokens[token].revoked
  {
  }

  lemma CodeKept(a: Grants, b: Grants, h: string)
    requires Evolves(a, b)
    ensures h in a.codes ==>
              && h in b.codes && b.codes[h] == a.codes[h].(consumed := b.codes[h].consumed, token := b.codes[h].token)
              && (a.codes[h].consumed ==> b.codes[h] == a.codes[h])
  {
  }

  lemma ExchangeGuard(a: Grants, b: Grants, g: ClientGrant, now: int)
    requires Evolves(a, b) && g.codeHash in a.codes
    requires a.codes[g.codeHash].account == g.account && a.codes[g.codeHash].client == g.client
    ensures Guard(b, Exchange(g, now))
  {
  }

  lemma RevokeUnguarded(db: Grants, token: Id)
    ensures Guard(db, Revoke(token))
  {
  }

  /** An exchange of a code there is, whose client there is, is refused only as spent or expired, or for its name. */
  lemma ExchangeOutcome(db: Grants, g: ClientGrant, now: int)
    requires Inv(db) && g.codeHash in db.codes && db.codes[g.codeHash].client == g.client
    ensures var after, r := ExchangeTx(db, g, now).0, ExchangeTx(db, g, now).1;
            && (r.Err? ==> after == db && r.error in {Invalid, NameTaken})
            && (r == Err(Invalid) ==> db.codes[g.codeHash].consumed || db.codes[g.codeHash].expiresAt <= now)
            && (r.Ok? ==> && after != db && g.codeHash in after.codes
                          && after.codes[g.codeHash] == db.codes[g.codeHash].(consumed := true, token := Some(r.value)))
  {
    assert CodeOk(db, g.codeHash);
  }
}
