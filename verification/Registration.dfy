/**
 * Registration: Register of internal/identity/service.go over the transactions of
 * internal/store/invites.go, with everybody else's transactions running between its own.
 */
module Registration {
  import opened Basics
  import opened Invites

  /** One committed transaction, and whether a registration of this service made it. */
  datatype Step = Step(own: bool, action: Action)

  function Actions(steps: seq<Step>): seq<Action> {
    seq(|steps|, i requires 0 <= i < |steps| => steps[i].action)
  }

  /** The transactions of this service's own registrations that changed a row, in order. */
  function Own(steps: seq<Step>): seq<Action> {
    if steps == [] then []
    else
      var init, last := steps[..|steps| - 1], steps[|steps| - 1];
      var db := After(Actions(init));
      if last.own && Apply(db, last.action) != db then Own(init) + [last.action] else Own(init)
  }

  /**
   * Accounts and invites, statement by statement. Every transaction is entered in the journal by the
   * method that runs it: as the service's own, unless it is somebody else's, which is what Perform runs.
   */
  class InviteStore {
    var db: Ledger
    ghost var journal: seq<Step>

    constructor ()
      ensures db == EMPTY && journal == []
    {
      db, journal := EMPTY, [];
    }

    method CreateInvite(hash: string, email: Option<string>, createdBy: Option<Id>,
                        expiresAt: int) returns (r: Result<Id, Refusal>)
      modifies this
      ensures (db, r) == MintTx(old(db), hash, email, createdBy, expiresAt)
      ensures journal == old(journal) + [Step(true, Mint(hash, email, createdBy, expiresAt))]
    {
      journal := journal + [Step(true, Mint(hash, email, createdBy, expiresAt))];
      if email.Some? {
        if EmailUsed(db, email.value) {
          return Err(AddressRegistered);
        }
      }
      if HashUsed(db, hash) || (createdBy.Some? && createdBy.value !in db.accounts) {
        return Err(Fault);
      }
      var id := db.nextId;
      db := db.(invites := db.invites[id := Invite(hash, email, createdBy, expiresAt, None, false)], nextId := id + 1);
      r := Ok(id);
    }

    /** The code and the candidate address are one predicate, so every bad pair is the same answer. */
    method LiveInvite(hash: string, candidate: string, now: int) returns (r: Option<Id>)
      ensures r.Some? ==> r.value in db.invites && Matches(db.invites[r.value], hash, candidate, now)
      ensures r.None? ==> forall i | i in db.invites :: !Matches(db.invites[i], hash, candidate, now)
      ensures r.Some? ==> && db.invites[r.value].codeHash == hash
                          && db.invites[r.value].email in {None, Some(candidate)}
                          && db.invites[r.value].consumedBy.None? && !db.invites[r.value].revoked
                          && now < db.invites[r.value].expiresAt
      ensures r.None? <==> forall i | i in db.invites ::
                || db.invites[i].codeHash != hash || db.invites[i].email !in {None, Some(candidate)}
                || db.invites[i].consumedBy.Some? || db.invites[i].revoked || db.invites[i].expiresAt <= now
    {
      var rest := db.invites.Keys;
      while rest != {}
        invariant rest <= db.invites.Keys
        invariant forall i | i in db.invites && i !in rest :: !Matches(db.invites[i], hash, candidate, now)
        decreases |rest|
      {
        var i :| i in rest;
        if Matches(db.invites[i], hash, candidate, now) {
          return Some(i);
        }
        rest := rest - {i};
      }
      r := None;
    }

    method RevokeInvite(id: Id, now: int) returns (r: Result<(), Refusal>)
      modifies this
      ensures (db, r) == RevokeTx(old(db), id, now)
      ensures journal == old(journal) + [Step(true, Revoke(id, now))]
    {
      journal := journal + [Step(true, Revoke(id, now))];
      if id !in db.invites || !Live(db.invites[id], now) {
        return Err(NotFound);
      }
      db := db.(invites := db.invites[id := db.invites[id].(revoked := true)]);
      r := Ok(());
    }

    /** The guarded spend and the insert, rolled back together when the address is taken. */
    method SpendInviteAndCreateAccount(invite: Id, email: string, now: int) returns (r: Result<Id, Refusal>)
      modifies this
      ensures (db, r) == SpendTx(old(db), invite, email, now)
      ensures r.Ok? ==> && invite in old(db).invites && now < old(db).invites[invite].expiresAt
                        && old(db).invites[invite].consumedBy.None? && !old(db).invites[invite].revoked
                        && invite in db.invites && db.invites[invite].consumedBy == Some(r.value)
      ensures journal == old(journal) + [Step(true, Spend(invite, email, now))]
    {
      journal := journal + [Step(true, Spend(invite, email, now))];
      var before := db;
      var account := db.nextId;
      if invite !in db.invites || !Live(db.invites[invite], now) {
        return Err(InviteInvalid);
      }
      db := db.(invites := db.invites[invite := db.invites[invite].(consumedBy := Some(account))]);
      assert EmailUsed(db, email) == EmailUsed(before, email);
      if EmailUsed(db, email) {
        db := before;
        return Err(EmailTaken);
      }
      assert AnyPerson(db) == AnyPerson(before);
      db := db.(accounts := db.accounts[account := Account(Some(email), !AnyPerson(db))], nextId := account + 1);
      r := Ok(account);
    }

    /** Somebody else's transaction. */
    method Perform(a: Action)
      modifies this
      ensures db == Apply(old(db), a) && journal == old(journal) + [Step(false, a)]
    {
      match a {
        case Mint(hash, email, createdBy, expiresAt) => var _ := CreateInvite(hash, email, createdBy, expiresAt);
        case Revoke(invite, now) => var _ := RevokeInvite(invite, now);
        case Spend(invite, email, now) => var _ := SpendInviteAndCreateAccount(invite, email, now);
        case Bootstrap => db := db.(accounts := db.accounts[db.nextId := Account(None, false)],
            nextId := db.nextId + 1);
      }
      journal := old(journal) + [Step(false, a)];
    }
  }

  predicate Matches(i: Invite, hash: string, candidate: string, now: int) {
    i.codeHash == hash && (i.email.None? || i.email == Some(candidate)) && Live(i, now)
  }

  /** No match, in the rows' own fields. */
  lemma NoMatchMeans(db: Ledger, codeHash: string, candidate: string, now: int)
    ensures NoMatch(db, codeHash, candidate, now) <==> forall i | i in db.invites ::
              || db.invites[i].codeHash != codeHash || db.invites[i].email !in {None, Some(candidate)}
              || db.invites[i].consumedBy.Some? || db.invites[i].revoked || db.invites[i].expiresAt <= now
  {
  }

  predicate NoMatch(db: Ledger, codeHash: string, candidate: string, now: int) {
    forall i | i in db.invites :: !Matches(db.invites[i], codeHash, candidate, now)
  }

  /** Some moment of that stretch at which a live invite matches the code and the address. */
  ghost predicate Found(db: Ledger, hash: string, candidate: string, from: int, to: int) {
    exists i, at :: from <= at <= to && i in db.invites && Matches(db.invites[i], hash, candidate, at)
  }

  datatype Code = InviteRefused | EmailInvalid | PasswordTooShort | MailUnavailable

  /** What the caller hears. A fresh registration and a taken address are the same answer. */
  datatype Answer = Accepted | Refused(code: Code) | Unavailable

  datatype Message = VerifyLink | AlreadyRegistered

  class Service {
    const store: InviteStore
    const hash: string -> string
    const normalize: string -> string
    /** Whether an address, once normalized, is one. */
    const wellFormed: string -> bool
    const hasMailer: bool
    /** What becomes of the k-th call to the store, the hasher or the link's minting. */
    const reach: nat -> Fate
    var asked: nat
    var now: int

    constructor (store: InviteStore, hash: string -> string, normalize: string -> string, wellFormed: string -> bool,
                 hasMailer: bool, reach: nat -> Fate, now: int)
      requires store.db == EMPTY && store.journal == []
      ensures Valid() && this.store == store && this.hash == hash && this.normalize == normalize
      ensures this.wellFormed == wellFormed && this.hasMailer == hasMailer && this.reach == reach && asked == 0
    {
      this.store, this.hash, this.normalize, this.wellFormed := store, hash, normalize, wellFormed;
      this.hasMailer, this.reach, this.now, this.asked := hasMailer, reach, now, 0;
    }

    /** Some call from this one on was not answered. */
    ghost predicate Hindered(from: nat)
      reads this`asked
    {
      exists k :: from <= k < asked && reach(k) != Heard
    }

    /** At some moment since, no live invite matched the code and the address. */
    ghost predicate Barred(codeHash: string, candidate: string, early: nat, clock: int)
      reads this, store
    {
      exists n, at :: early <= n <= |store.journal| && clock <= at <= now
                      && NoMatch(After(Actions(store.journal[..n])), codeHash, candidate, at)
    }

    lemma HinderedAt(from: nat, k: nat)
      requires from <= k < asked && reach(k) != Heard
      ensures Hindered(from)
    {
    }

    lemma BarredAt(codeHash: string, candidate: string, early: nat, clock: int, n: nat, at: int)
      requires early <= n <= |store.journal| && clock <= at <= now
      requires NoMatch(After(Actions(store.journal[..n])), codeHash, candidate, at)
      ensures Barred(codeHash, candidate, early, clock)
    {
    }

    /** What is wrong with a registration that holds an invite: the first thing there is. */
    predicate Deserved(why: Code, email: string, passwordOk: bool) {
      match why
      case InviteRefused => false
      case EmailInvalid => !wellFormed(email)
      case PasswordTooShort => wellFormed(email) && !passwordOk
      case MailUnavailable => wellFormed(email) && passwordOk && !hasMailer
    }

    /** One call: what becomes of it is not the service's to say. */
    method Reach() returns (fate: Fate)
      modifies this`asked
      ensures asked == old(asked) + 1 && fate == reach(old(asked))
    {
      fate := reach(asked);
      asked := asked + 1;
    }

    /** The rows are what the journal's transactions make of an empty database. */
    ghost predicate Valid()
      reads this, store
    {
      Legal(Actions(store.journal)) && store.db == After(Actions(store.journal))
    }

    lemma Committed(a: Action, mine: bool)
      requires Valid() && Guard(store.db, a)
      ensures var steps := store.journal + [Step(mine, a)];
              && Legal(Actions(steps)) && After(Actions(steps)) == Apply(store.db, a)
              && Own(steps) == Own(store.journal) + (if mine && Apply(store.db, a) != store.db then [a] else [])
      ensures Inv(store.db) && Inv(Apply(store.db, a)) && Evolves(store.db, Apply(store.db, a))
    {
      hide Inv, Legal, After, Guard, Evolves, Apply;
      InvOverRuns(Actions(store.journal));
      Extend(Actions(store.journal), a);
      StepKeeps(store.db, a);
      var steps := store.journal + [Step(mine, a)];
      assert Actions(steps) == Actions(store.journal) + [a];
      assert steps[..|steps| - 1] == store.journal;
    }

    method Others()
      requires Valid()
      modifies this`now, store
      ensures Valid() && old(now) <= now && Evolves(old(store.db), store.db)
      ensures old(store.journal) <= store.journal && Own(store.journal) == Own(old(store.journal))
    {
      hide Inv, Legal, After, Guard, Evolves, Apply, Own;
      EvolvesNow(store.db);
      var elapsed: nat, turns: nat := *, *;
      now := now + elapsed;
      while turns > 0
        invariant Valid() && old(now) <= now && Evolves(old(store.db), store.db)
        invariant old(store.journal) <= store.journal && Own(store.journal) == Own(old(store.journal))
      {
        var a: Action := *;
        if Guard(store.db, a) {
          Committed(a, false);
          EvolvesTwice(old(store.db), store.db, Apply(store.db, a));
          store.Perform(a);
        }
        turns := turns - 1;
      }
    }

    method CheckEmail(raw: string) returns (r: Option<string>)
      ensures r == if wellFormed(normalize(raw)) then Some(normalize(raw)) else None
    {
      r := if wellFormed(normalize(raw)) then Some(normalize(raw)) else None;
    }

    /**
     * Spends an invite and creates the account it authorised. A new account means this call spent,
     * once, the invite the presented code names, for the normalized address and no other; every other
     * outcome, a taken address included, changed no row at all, and a taken address hears what a fresh one
     * hears. Whoever holds no matching live code is refused for that, whatever else is wrong: the other
     * refusals found one at the moment `looked`, and are for exactly what they say. A caller is told the
     * platform is unavailable only when some call of this request went unanswered.
     */
    method Register(code: string, rawEmail: string, passwordOk: bool) returns (r: Answer, sent: Option<Message>,
                    ghost looked: nat)
      requires Valid()
      modifies this`now, this`asked, store
      ensures Valid() && Evolves(old(store.db), store.db) && old(store.journal) <= store.journal
      ensures || Own(store.journal) == Own(old(store.journal))
              || exists invite, at ::
                   && Own(store.journal) == Own(old(store.journal)) + [Spend(invite, normalize(rawEmail), at)]
                   && old(now) <= at <= now && invite in store.db.invites
                   && var row := store.db.invites[invite];
                   && row.codeHash == hash(code) && row.email in {None, Some(normalize(rawEmail))}
                   && at < row.expiresAt && !row.revoked
                   && row.consumedBy.Some? && row.consumedBy.value in store.db.accounts
                   && store.db.accounts[row.consumedBy.value].email == Some(normalize(rawEmail))
      ensures sent == Some(VerifyLink) ==> r == Accepted && Own(store.journal) != Own(old(store.journal))
      ensures sent == Some(AlreadyRegistered) ==>
                r == Accepted && Own(store.journal) == Own(old(store.journal))
                    && EmailUsed(store.db, normalize(rawEmail))
      ensures |old(store.journal)| <= looked <= |store.journal|
      ensures match r
              case Accepted => sent.Some? && wellFormed(normalize(rawEmail)) && passwordOk && hasMailer
              case Unavailable => sent.None? && Hindered(old(asked))
              case Refused(why) =>
                && sent.None? && Own(store.journal) == Own(old(store.journal))
                && if why == InviteRefused then
                     Barred(hash(code), normalize(rawEmail), |old(store.journal)|, old(now))
                   else
                     && Found(After(Actions(store.journal[..looked])), hash(code), normalize(rawEmail), old(now), now)
                     && Deserved(why, normalize(rawEmail), passwordOk)
    {
      hide Inv, Legal, After, Guard, Evolves, SpendTx, Own, Matches, NoMatch, Hindered, Barred, SpentFor, EmailUsed,
           Apply, Found, Actions;
      ghost var first := asked;
      var fate, invite := LookUp(hash(code), normalize(rawEmail));
      looked := |store.journal|;
      ghost var read := store.db;
      assert store.journal[..looked] == store.journal;
      if fate != Heard {
        HinderedAt(first, first);
        return Unavailable, None, looked;
      }
      if invite.None? {
        BarredAt(hash(code), normalize(rawEmail), |old(store.journal)|, old(now), looked, now);
        return Refused(InviteRefused), None, looked;
      }
      var email := CheckEmail(rawEmail);
      if email.None? {
        return Refused(EmailInvalid), None, looked;
      }
      if !passwordOk {
        return Refused(PasswordTooShort), None, looked;
      }
      if !hasMailer {
        return Refused(MailUnavailable), None, looked;
      }
      EvolvesNow(read);
      r, sent := Enrol(invite.value, email.value, hash(code), read, |old(store.journal)|, old(now));
      HinderedSince(first, first + 1);
      EvolvesTwice(old(store.db), read, store.db);
      if Own(store.journal) != Own(old(store.journal)) {
        var i, at := SpentAs(hash(code), email.value, Own(old(store.journal)), Own(store.journal), store.db, old(now),
                             now);
      }
    }

    /** The invite this code and this address match, if there is one. */
    method LookUp(codeHash: string, candidate: string) returns (fate: Fate, invite: Option<Id>)
      requires Valid()
      modifies this`now, this`asked, store
      ensures Valid() && Evolves(old(store.db), store.db) && old(store.journal) <= store.journal && old(now) <= now
      ensures Own(store.journal) == Own(old(store.journal))
      ensures asked == old(asked) + 1 && fate == reach(old(asked))
      ensures fate == Heard && invite.None? ==> NoMatch(store.db, codeHash, candidate, now)
      ensures invite.Some? ==>
                && Found(store.db, codeHash, candidate, old(now), now) && invite.value in store.db.invites
                && store.db.invites[invite.value].codeHash == codeHash
                && var found := store.db.invites[invite.value];
                && (found.email.None? || found.email == Some(candidate))
    {
      hide Inv, Legal, After, Guard, Evolves, Own, Matches, NoMatch;
      Others();
      fate := Reach();
      invite := None;
      if fate == Heard {
        invite := store.LiveInvite(codeHash, candidate, now);
        MatchedFor(store.db, invite, codeHash, candidate, now);
        if invite.None? {
          NoneMatches(store.db, codeHash, candidate, now);
        }
      }
    }

    lemma HinderedSince(early: nat, from: nat)
      requires early <= from
      ensures Hindered(from) ==> Hindered(early)
    {
    }

    /** The part behind the gate: the password is hashed, the invite spent, and the verification link minted. */
    method Enrol(invite: Id, email: string, ghost codeHash: string, ghost read: Ledger, ghost early: nat,
                 ghost clock: int) returns (r: Answer, sent: Option<Message>)
      requires Valid() && Evolves(read, store.db) && invite in read.invites && read.invites[invite].codeHash == codeHash
      requires read.invites[invite].email.None? || read.invites[invite].email == Some(email)
      requires early <= |store.journal| && clock <= now
      modifies this`now, this`asked, store
      ensures Valid() && Evolves(old(store.db), store.db) && old(store.journal) <= store.journal && old(now) <= now
      ensures old(asked) <= asked
      ensures match r
              case Accepted => sent.Some?
              case Unavailable => sent.None? && Hindered(old(asked))
              case Refused(why) => sent.None? && why == InviteRefused && Barred(codeHash, email, early, clock)
      ensures if Own(store.journal) == Own(old(store.journal)) then sent != Some(VerifyLink)
              else r != Refused(InviteRefused)
      ensures sent == Some(AlreadyRegistered) ==>
                Own(store.journal) == Own(old(store.journal)) && EmailUsed(store.db, email)
      ensures Own(store.journal) == Own(old(store.journal))
              || SpentFor(codeHash, email, Own(old(store.journal)), Own(store.journal), store.db, clock, now)
    {
      hide Inv, Legal, After, Guard, Evolves, SpendTx, Own, Matches, NoMatch, Hindered, Barred, SpentFor;
      sent := None;
      ghost var first := asked;
      EvolvesNow(store.db);
      var fate := Reach();
      if fate != Heard {
        HinderedAt(first, first);
        return Unavailable, None;
      }
      var account;
      fate, account := SpendFor(invite, email, codeHash, read);
      Within(codeHash, email, Own(old(store.journal)), Own(store.journal), store.db, old(now), now, clock);
      if fate != Heard {
        HinderedAt(first, first + 1);
        return Unavailable, None;
      }
      match account {
        case Err(InviteInvalid) =>
          ghost var n := |store.journal|;
          assert store.journal[..n] == store.journal;
          BarredAt(codeHash, email, early, clock, n, now);
          r := Refused(InviteRefused);
        case Err(EmailTaken) =>
          r, sent := Accepted, Some(AlreadyRegistered);
        case Ok(id) =>
          fate := Reach();
          if fate != Heard {
            HinderedAt(first, first + 2);
            return Unavailable, None;
          }
          r, sent := Accepted, Some(VerifyLink);
      }
    }

    /** The spend, whatever becomes of the call: made once, on the invite that was found, or not at all. */
    method SpendFor(invite: Id, email: string, ghost codeHash: string,
                    ghost read: Ledger) returns (fate: Fate, account: Result<Id, Refusal>)
      requires Valid() && Evolves(read, store.db) && invite in read.invites && read.invites[invite].codeHash == codeHash
      requires read.invites[invite].email.None? || read.invites[invite].email == Some(email)
      modifies this`now, this`asked, store
      ensures Valid() && Evolves(old(store.db), store.db) && old(store.journal) <= store.journal && old(now) <= now
      ensures asked == old(asked) + 1 && fate == reach(old(asked))
      ensures fate == Lost || account.Err? ==> Own(store.journal) == Own(old(store.journal))
      ensures fate != Lost && account.Ok? ==>
                && Own(store.journal) != Own(old(store.journal))
                && SpentFor(codeHash, email, Own(old(store.journal)), Own(store.journal), store.db, old(now), now)
      ensures fate != Lost && account.Err? ==>
                if account.error == EmailTaken then EmailUsed(store.db, email)
                else account.error == InviteInvalid && NoMatch(store.db, codeHash, email, now)
    {
      hide Inv, Legal, After, Guard, Evolves, SpendTx, Own, Matches, NoMatch;
      ghost var before := store.db;
      Others();
      EvolvesTwice(read, before, store.db);
      fate := Reach();
      if fate == Lost {
        return fate, Err(Fault);
      }
      ghost var a := Spend(invite, email, now);
      InviteKept(read, store.db, invite);
      MatchedGuard(read, store.db, invite, codeHash, email, now);
      Committed(a, true);
      EvolvesTwice(before, store.db, Apply(store.db, a));
      SpendOutcome(store.db, invite, email, now);
      account := store.SpendInviteAndCreateAccount(invite, email, now);
      assert account.Ok? ==>
        SpendOf(invite, now, codeHash, email, Own(old(store.journal)), Own(store.journal), store.db, old(now), now);
    }

  }

  /** All that was added is one spend of the very invite this code names, and the account it made. */
  ghost predicate SpentFor(codeHash: string, email: string, before: seq<Action>, now: seq<Action>, db: Ledger,
                           clock: int, until: int) {
    exists invite, at :: SpendOf(invite, at, codeHash, email, before, now, db, clock, until)
  }

  ghost predicate SpendOf(invite: Id, at: int, codeHash: string, email: string, before: seq<Action>, now: seq<Action>,
                          db: Ledger, clock: int, until: int) {
    && now == before + [Spend(invite, email, at)] && clock <= at <= until
    && invite in db.invites && db.invites[invite].codeHash == codeHash && at < db.invites[invite].expiresAt
    && !db.invites[invite].revoked
    && (db.invites[invite].email.Some? ==> db.invites[invite].email == Some(email))
    && db.invites[invite].consumedBy.Some? && db.invites[invite].consumedBy.value in db.accounts
    && db.accounts[db.invites[invite].consumedBy.value].email == Some(email)
  }

  /** A spend within a stretch of time is one within any longer stretch. */
  lemma Within(codeHash: string, email: string, before: seq<Action>, now: seq<Action>, db: Ledger, clock: int,
               until: int, early: int)
    requires early <= clock
    ensures SpentFor(codeHash, email, before, now, db, clock, until) ==>
              SpentFor(codeHash, email, before, now, db, early, until)
  {
    if SpentFor(codeHash, email, before, now, db, clock, until) {
      var invite, at :| SpendOf(invite, at, codeHash, email, before, now, db, clock, until);
      assert SpendOf(invite, at, codeHash, email, before, now, db, early, until);
    }
  }

  lemma SpentAs(codeHash: string, email: string, before: seq<Action>, now: seq<Action>, db: Ledger, clock: int,
                until: int) returns (invite: Id, at: int)
    requires SpentFor(codeHash, email, before, now, db, clock, until)
    ensures SpendOf(invite, at, codeHash, email, before, now, db, clock, until)
  {
    invite, at :| SpendOf(invite, at, codeHash, email, before, now, db, clock, until);
  }

  lemma InviteKept(a: Ledger, b: Ledger, i: Id)
    requires Evolves(a, b) && i in a.invites
    ensures i in b.invites && b.invites[i].codeHash == a.invites[i].codeHash && b.invites[i].email == a.invites[i].email
  {
  }

  lemma MatchedFor(db: Ledger, i: Option<Id>, hash: string, email: string, now: int)
    requires i.Some? ==> i.value in db.invites && Matches(db.invites[i.value], hash, email, now)
    ensures i.Some? ==> db.invites[i.value].codeHash == hash
                        && (db.invites[i.value].email.None? || db.invites[i.value].email == Some(email))
  {
  }

  lemma MatchedGuard(a: Ledger, b: Ledger, i: Id, hash: string, email: string, now: int)
    requires i in a.invites && i in b.invites && b.invites[i].email == a.invites[i].email
    requires a.invites[i].email.None? || a.invites[i].email == Some(email)
    ensures Guard(b, Spend(i, email, now))
  {
  }

  lemma NoneMatches(db: Ledger, codeHash: string, candidate: string, now: int)
    requires forall i | i in db.invites :: !Matches(db.invites[i], codeHash, candidate, now)
    ensures NoMatch(db, codeHash, candidate, now)
  {
  }

  /** Refused as ended, it was the one invite its code names, so nothing live matches; else the address is taken. */
  lemma SpendOutcome(db: Ledger, invite: Id, email: string, now: int)
    requires Inv(db) && invite in db.invites
    ensures var after, r := SpendTx(db, invite, email, now).0, SpendTx(db, invite, email, now).1;
            && (r.Err? <==> after == db)
            && (r.Err? ==> if r.error == EmailTaken then EmailUsed(db, email)
                           else r.error == InviteInvalid && NoMatch(db, db.invites[invite].codeHash, email, now))
            && (r.Ok? ==> && invite in after.invites
                          && after.invites[invite] == db.invites[invite].(consumedBy := Some(r.value))
                          && r.value in after.accounts && after.accounts[r.value].email == Some(email))
  {
  }
}
