/**
 * The invite ledger: internal/store/invites.go. An invite ends at most once, spent or revoked, and
 * spending it and creating the account it authorised are one transaction.
 */
module Invites {
  import opened Basics

  type Id = nat

  /** `email` is the address an invite is bound to, null for an unbound one. */
  datatype Invite = Invite(
    codeHash: string, email: Option<string>, createdBy: Option<Id>, expiresAt: int, consumedBy: Option<Id>,
        revoked: bool)

  /** `email` is null for an account no person registered. */
  datatype Account = Account(email: Option<string>, admin: bool)

  datatype Ledger = Ledger(invites: map<Id, Invite>, accounts: map<Id, Account>, nextId: Id)

  datatype Refusal = InviteInvalid | EmailTaken | AddressRegistered | NotFound | Fault

  datatype Action =
    | Mint(codeHash: string, bound: Option<string>, createdBy: Option<Id>, expiresAt: int)
    | Revoke(invite: Id, now: int)
    | Spend(invite: Id, email: string, now: int)
    | Bootstrap

  // ---- Transactions ----------------------------------------------------------------------------

  /** The live predicate every guard carries in full. */
  predicate Live(i: Invite, now: int) {
    i.consumedBy.None? && !i.revoked && i.expiresAt > now
  }

  predicate EmailUsed(db: Ledger, email: string) {
    exists a :: a in db.accounts && db.accounts[a].email == Some(email)
  }

  predicate HashUsed(db: Ledger, hash: string) {
    exists i :: i in db.invites && db.invites[i].codeHash == hash
  }

  predicate AnyPerson(db: Ledger) {
    exists a :: a in db.accounts && db.accounts[a].email.Some?
  }

  /** A bound mint reads the accounts inside the transaction that inserts. */
  function MintTx(db: Ledger, hash: string, email: Option<string>, createdBy: Option<Id>, expiresAt: int)
    : (Ledger, Result<Id, Refusal>)
  {
    if email.Some? && EmailUsed(db, email.value) then (db, Err(AddressRegistered))
    else if HashUsed(db, hash) || (createdBy.Some? && createdBy.value !in db.accounts) then (db, Err(Fault))
    else (db.(invites := db.invites[db.nextId := Invite(hash, email, createdBy, expiresAt, None, false)],
        nextId := db.nextId + 1),
          Ok(db.nextId))
  }

  function RevokeTx(db: Ledger, invite: Id, now: int): (Ledger, Result<(), Refusal>) {
    if invite in db.invites && Live(db.invites[invite], now)
    then (db.(invites := db.invites[invite := db.invites[invite].(revoked := true)]), Ok(()))
    else (db, Err(NotFound))
  }

  /** The first person ever registered is the admin. */
  function SpendTx(db: Ledger, invite: Id, email: string, now: int): (Ledger, Result<Id, Refusal>) {
    if invite !in db.invites || !Live(db.invites[invite], now) then (db, Err(InviteInvalid))
    else if EmailUsed(db, email) then (db, Err(EmailTaken))
    else (Ledger(db.invites[invite := db.invites[invite].(consumedBy := Some(db.nextId))],
                 db.accounts[db.nextId := Account(Some(email), !AnyPerson(db))],
                 db.nextId + 1),
          Ok(db.nextId))
  }

  function Apply(db: Ledger, a: Action): Ledger {
    match a
    case Mint(hash, email, createdBy, expiresAt) => MintTx(db, hash, email, createdBy, expiresAt).0
    case Revoke(invite, now) => RevokeTx(db, invite, now).0
    case Spend(invite, email, now) => SpendTx(db, invite, email, now).0
    case Bootstrap => db.(accounts := db.accounts[db.nextId := Account(None, false)], nextId := db.nextId + 1)
  }

  /** Registration hands over only an address the invite's lookup matched. */
  predicate Guard(db: Ledger, a: Action) {
    a.Spend? && a.invite in db.invites && db.invites[a.invite].email.Some? ==>
        db.invites[a.invite].email == Some(a.email)
  }

  // ---- What holds in every reachable state -----------------------------------------------------

  predicate InviteOk(db: Ledger, i: Id)
    requires i in db.invites
  {
    var inv := db.invites[i];
    && i < db.nextId
    && (inv.consumedBy.Some? ==>
          && !inv.revoked && inv.consumedBy.value in db.accounts
          && db.accounts[inv.consumedBy.value].email.Some?
          && (inv.email.Some? ==> db.accounts[inv.consumedBy.value].email == inv.email))
  }

  predicate InvitesOk(db: Ledger) {
    forall i | i in db.invites :: InviteOk(db, i)
  }

  predicate SpentOn(db: Ledger, i: Id, a: Id) {
    i in db.invites && db.invites[i].consumedBy == Some(a)
  }

  /** Invites spent and people registered are in one to one correspondence. */
  predicate OneToOne(db: Ledger) {
    && (forall i, j | i in db.invites && j in db.invites && db.invites[i].consumedBy.Some?
                      && db.invites[i].consumedBy == db.invites[j].consumedBy :: i == j)
    && (forall a | a in db.accounts && db.accounts[a].email.Some? :: exists i :: i in db.invites && SpentOn(db, i, a))
  }

  predicate AccountsOk(db: Ledger) {
    && (forall a | a in db.accounts :: a < db.nextId)
    && (forall a, b | a in db.accounts && b in db.accounts && db.accounts[a].email.Some?
                      && db.accounts[a].email == db.accounts[b].email :: a == b)
  }

  /** The first person is the admin, and nobody else ever is. */
  predicate OneAdmin(db: Ledger) {
    && (forall a | a in db.accounts && db.accounts[a].admin :: db.accounts[a].email.Some?)
    && (forall a, b | a in db.accounts && b in db.accounts && db.accounts[a].admin && db.accounts[b].admin :: a == b)
    && (AnyPerson(db) ==> exists a :: a in db.accounts && db.accounts[a].admin)
  }

  /** A code names one invite. */
  predicate HashesApart(db: Ledger) {
    forall i, j | i in db.invites && j in db.invites && db.invites[i].codeHash == db.invites[j].codeHash :: i == j
  }

  predicate Inv(db: Ledger) {
    InvitesOk(db) && OneToOne(db) && AccountsOk(db) && OneAdmin(db) && HashesApart(db)
  }

  const EMPTY := Ledger(map[], map[], 0)

  /** An ended invite never changes again, an open one only by ending, and accounts are permanent. */
  predicate Evolves(a: Ledger, b: Ledger) {
    && a.nextId <= b.nextId
    && (forall i | i in a.invites ::
          && i in b.invites
          && b.invites[i] == a.invites[i].(consumedBy := b.invites[i].consumedBy, revoked := b.invites[i].revoked)
          && (a.invites[i].consumedBy.Some? || a.invites[i].revoked ==> b.invites[i] == a.invites[i]))
    && (forall x | x in a.accounts :: x in b.accounts && b.accounts[x] == a.accounts[x])
  }

  lemma StillSpent(db: Ledger, after: Ledger)
    requires OneToOne(db)
    requires forall i | i in db.invites && db.invites[i].consumedBy.Some? ::
               i in after.invites && after.invites[i].consumedBy == db.invites[i].consumedBy
    ensures forall a | a in db.accounts && db.accounts[a].email.Some? :: exists i ::
            i in after.invites && SpentOn(after, i, a)
  {
  }

  lemma InvitesKeep(db: Ledger, after: Ledger)
    requires Inv(db) && after.accounts == db.accounts && db.nextId <= after.nextId
    requires forall i | i in db.invites ::
               && i in after.invites && after.invites[i] == db.invites[i].(revoked := after.invites[i].revoked)
               && (db.invites[i].consumedBy.Some? || db.invites[i].revoked ==> after.invites[i] == db.invites[i])
    requires forall i | i in after.invites && i !in db.invites :: i < after.nextId && after.invites[i].consumedBy.None?
    requires forall i | i in after.invites && i !in db.invites ::
               !HashUsed(db, after.invites[i].codeHash) && after.invites.Keys <= db.invites.Keys + {i}
    ensures Inv(after) && Evolves(db, after)
  {
  }

  lemma SpendKeeps(db: Ledger, invite: Id, email: string, now: int)
    requires Inv(db) && Guard(db, Spend(invite, email, now))
    ensures Inv(SpendTx(db, invite, email, now).0) && Evolves(db, SpendTx(db, invite, email, now).0)
  {
    var after := SpendTx(db, invite, email, now).0;
    if SpendTx(db, invite, email, now).1.Ok? {
      SpendInvites(db, invite, email, now);
      SpendAccounts(db, invite, email, now);
    }
  }

  lemma SpendInvites(db: Ledger, invite: Id, email: string, now: int)
    requires Inv(db) && Guard(db, Spend(invite, email, now)) && SpendTx(db, invite, email, now).1.Ok?
    ensures var after := SpendTx(db, invite, email, now).0; InvitesOk(after) && OneToOne(after)
  {
    hide OneAdmin, AnyPerson;
    var after := SpendTx(db, invite, email, now).0;
    forall i | i in after.invites ensures InviteOk(after, i) {
      assert InviteOk(db, i);
    }
    forall i | i in db.invites && db.invites[i].consumedBy.Some? ensures db.invites[i].consumedBy != Some(db.nextId) {
      assert InviteOk(db, i);
    }
    StillSpent(db, after);
    assert SpentOn(after, invite, db.nextId);
  }

  lemma SpendAccounts(db: Ledger, invite: Id, email: string, now: int)
    requires Inv(db) && SpendTx(db, invite, email, now).1.Ok?
    ensures var after := SpendTx(db, invite, email, now).0; AccountsOk(after) && OneAdmin(after) && Evolves(db, after)
  {
    hide InvitesOk, OneToOne, OneAdmin, AnyPerson;
    PersonAdded(db, email, SpendTx(db, invite, email, now).0);
  }

  lemma PersonAdded(db: Ledger, email: string, after: Ledger)
    requires OneAdmin(db) && AccountsOk(db)
    requires after.accounts == db.accounts[db.nextId := Account(Some(email), !AnyPerson(db))]
    ensures OneAdmin(after)
  {
    if AnyPerson(db) {
      var a :| a in db.accounts && db.accounts[a].admin;
      assert a in after.accounts && after.accounts[a].admin;
    } else {
      assert db.nextId in after.accounts && after.accounts[db.nextId].admin;
    }
  }

  lemma BootstrapKeeps(db: Ledger)
    requires Inv(db)
    ensures Inv(Apply(db, Bootstrap)) && Evolves(db, Apply(db, Bootstrap))
  {
    hide OneAdmin, InvitesOk, OneToOne;
    var after := Apply(db, Bootstrap);
    BootstrapInvites(db, after);
    BootstrapAdmin(db, after);
  }

  lemma BootstrapInvites(db: Ledger, after: Ledger)
    requires InvitesOk(db) && OneToOne(db) && AccountsOk(db)
    requires after.invites == db.invites && db.nextId <= after.nextId
    requires after.accounts == db.accounts[db.nextId := Account(None, false)]
    ensures InvitesOk(after) && OneToOne(after)
  {
  }

  lemma BootstrapAdmin(db: Ledger, after: Ledger)
    requires OneAdmin(db) && AccountsOk(db) && after.accounts == db.accounts[db.nextId := Account(None, false)]
    ensures OneAdmin(after)
  {
    if AnyPerson(after) {
      var p :| p in after.accounts && after.accounts[p].email.Some?;
      assert p in db.accounts;
      var a :| a in db.accounts && db.accounts[a].admin;
      assert a in after.accounts && after.accounts[a].admin;
    }
  }

  lemma EvolvesNow(db: Ledger)
    ensures Evolves(db, db)
  {
  }

  lemma EvolvesTwice(a: Ledger, b: Ledger, c: Ledger)
    requires Evolves(a, b) && Evolves(b, c)
    ensures Evolves(a, c)
  {
  }

  lemma StepKeeps(db: Ledger, a: Action)
    requires Inv(db) && Guard(db, a)
    ensures Inv(Apply(db, a)) && Evolves(db, Apply(db, a))
  {
    hide Inv, Evolves, SpendTx;
    EvolvesNow(db);
    match a
    case Mint(hash, email, createdBy, expiresAt) =>
      IdsBelow(db);
      InvitesKeep(db, Apply(db, a));
    case Revoke(invite, now) =>
      InvitesKeep(db, Apply(db, a));
    case Spend(invite, email, now) => SpendKeeps(db, invite, email, now);
    case Bootstrap => BootstrapKeeps(db);
  }

  lemma IdsBelow(db: Ledger)
    requires Inv(db)
    ensures forall i | i in db.invites :: i < db.nextId
  {
  }

  // ---- Runs ------------------------------------------------------------------------------------

  function After(acts: seq<Action>): Ledger {
    if acts == [] then EMPTY else Apply(After(acts[..|acts| - 1]), acts[|acts| - 1])
  }

  predicate Legal(acts: seq<Action>) {
    acts == [] || (Legal(acts[..|acts| - 1]) && Guard(After(acts[..|acts| - 1]), acts[|acts| - 1]))
  }

  lemma Extend(acts: seq<Action>, a: Action)
    requires Legal(acts) && Guard(After(acts), a)
    ensures Legal(acts + [a]) && After(acts + [a]) == Apply(After(acts), a)
  {
  }

  lemma {:induction false} InvOverRuns(acts: seq<Action>)
    requires Legal(acts)
    ensures Inv(After(acts))
  {
    hide Apply, Guard, Inv;
    if acts == [] {
      EmptyInv();
    } else {
      InvOverRuns(acts[..|acts| - 1]);
      StepKeeps(After(acts[..|acts| - 1]), acts[|acts| - 1]);
    }
  }

  lemma EmptyInv()
    ensures Inv(EMPTY)
  {
  }

  lemma {:induction false} RunEvolves(acts: seq<Action>, from: nat)
    requires Legal(acts) && from <= |acts|
    ensures Legal(acts[..from]) && Evolves(After(acts[..from]), After(acts))
    decreases |acts|
  {
    hide Inv, Apply, Guard, Evolves;
    if from == |acts| {
      assert acts[..from] == acts;
      EvolvesNow(After(acts));
    } else {
      var init := acts[..|acts| - 1];
      RunEvolves(init, from);
      assert init[..from] == acts[..from];
      InvOverRuns(init);
      StepKeeps(After(init), acts[|acts| - 1]);
      EvolvesTwice(After(acts[..from]), After(init), After(acts));
    }
  }

  /**
   * The ledger, in every reachable state: a code names one invite, a spent invite names one registered
   * account and is not revoked, every registered account was named by exactly one invite, a bound invite
   * only ever yielded an account with its own address, and at most one account is the admin.
   */
  lemma LedgerBalances(acts: seq<Action>, i: Id, j: Id, a: Id)
    requires Legal(acts) && i in After(acts).invites && j in After(acts).invites && a in After(acts).accounts
    ensures var now := After(acts);
            && (now.invites[i].consumedBy.Some? ==>
                  && now.invites[i].consumedBy.value in now.accounts && !now.invites[i].revoked
                  && (now.invites[i].email.Some? ==>
                     now.accounts[now.invites[i].consumedBy.value].email == now.invites[i].email))
            && (SpentOn(now, i, a) && SpentOn(now, j, a) ==> i == j)
            && (now.invites[i].codeHash == now.invites[j].codeHash ==> i == j)
            && (now.accounts[a].email.Some? <==> exists k :: k in now.invites && SpentOn(now, k, a))
            && (now.accounts[a].admin ==> forall b | b in now.accounts && now.accounts[b].admin :: b == a)
  {
    hide Legal, After;
    InvOverRuns(acts);
    var now := After(acts);
    assert InviteOk(now, i) && InviteOk(now, j);
    if exists k :: k in now.invites && SpentOn(now, k, a) {
      var k :| k in now.invites && SpentOn(now, k, a);
      assert InviteOk(now, k);
    }
  }

  predicate SpentAt(acts: seq<Action>, k: nat)
    requires k < |acts|
  {
    acts[k].Spend? && SpendTx(After(acts[..k]), acts[k].invite, acts[k].email, acts[k].now).1.Ok?
  }

  /** Racing registrations: one invite makes one account, and one address is registered once. */
  lemma OneAccountPerInvite(acts: seq<Action>, j: nat, k: nat)
    requires Legal(acts) && j < k < |acts| && SpentAt(acts, j) && SpentAt(acts, k)
    ensures acts[j].invite != acts[k].invite && acts[j].email != acts[k].email
  {
    hide Inv, Legal, SpendTx, Evolves;
    assert acts[..k][..j + 1] == acts[..j + 1];
    assert acts[..j + 1][..j] == acts[..j];
    RunEvolves(acts, k);
    RunEvolves(acts[..k], j + 1);
    SpentOnce(After(acts[..j]), acts[j].invite, acts[j].email, acts[j].now,
              After(acts[..k]), acts[k].invite, acts[k].email, acts[k].now);
  }

  /** A later spend finds the earlier one's invite ended and its address taken. */
  lemma SpentOnce(a: Ledger, i: Id, first: string, at: int, b: Ledger, j: Id, second: string, now: int)
    requires SpendTx(a, i, first, at).1.Ok? && Evolves(SpendTx(a, i, first, at).0, b)
    requires SpendTx(b, j, second, now).1.Ok?
    ensures i != j && first != second
  {
    hide AnyPerson;
    var made := a.nextId;
    assert made in b.accounts && b.accounts[made].email == Some(first);
  }

  /** A revoked invite was live when it was revoked, and no registration ever spends it. */
  lemma RevokedNeverSpent(acts: seq<Action>, j: nat, k: nat)
    requires Legal(acts) && j < k < |acts| && acts[j].Revoke?
    requires RevokeTx(After(acts[..j]), acts[j].invite, acts[j].now).1.Ok?
    ensures Live(After(acts[..j]).invites[acts[j].invite], acts[j].now)
    ensures acts[k].Spend? && acts[k].invite == acts[j].invite ==>
              SpendTx(After(acts[..k]), acts[k].invite, acts[k].email, acts[k].now) == (After(acts[..k]),
                  Err(InviteInvalid))
  {
    hide Inv, Legal, AnyPerson;
    assert acts[..k][..j + 1] == acts[..j + 1];
    assert acts[..j + 1][..j] == acts[..j];
    RunEvolves(acts, k);
    RunEvolves(acts[..k], j + 1);
  }

  /** A taken address costs the invite nothing: refused, and exactly as live as before. */
  lemma TakenAddressLeavesInvite(db: Ledger, invite: Id, email: string, now: int)
    ensures SpendTx(db, invite, email, now).1.Err? ==> SpendTx(db, invite, email, now).0 == db
    ensures SpendTx(db, invite, email, now).1 == Err(InviteInvalid) <==>
              !(invite in db.invites && db.invites[invite].consumedBy.None? && !db.invites[invite].revoked
                && now < db.invites[invite].expiresAt)
    ensures SpendTx(db, invite, email, now).1.Ok? <==>
              && invite in db.invites && db.invites[invite].consumedBy.None? && !db.invites[invite].revoked
              && now < db.invites[invite].expiresAt
              && forall a | a in db.accounts :: db.accounts[a].email != Some(email)
    ensures SpendTx(db, invite, email, now).1.Err? ==>
              SpendTx(db, invite, email, now).1.error in {InviteInvalid, EmailTaken}
  {
  }

  /** A spend makes one account, with this address, and the administrator exactly when no person was there before. */
  lemma SpendMakes(db: Ledger, invite: Id, email: string, now: int)
    requires Inv(db) && SpendTx(db, invite, email, now).1.Ok?
    ensures var after, id := SpendTx(db, invite, email, now).0, SpendTx(db, invite, email, now).1.value;
            && id !in db.accounts && after.accounts.Keys == db.accounts.Keys + {id}
            && (forall a | a in db.accounts :: after.accounts[a] == db.accounts[a])
            && after.accounts[id].email == Some(email)
            && (after.accounts[id].admin <==> forall a | a in db.accounts :: db.accounts[a].email.None?)
            && invite in db.invites
            && after.invites == db.invites[invite := db.invites[invite].(consumedBy := Some(id))]
  {
    hide InvitesOk, OneToOne, OneAdmin, HashesApart;
  }

  /** An invite is revoked exactly when it is unspent, unrevoked and unexpired, and nothing else of it changes. */
  lemma RevokesIff(db: Ledger, invite: Id, now: int)
    ensures RevokeTx(db, invite, now).1.Ok? <==>
              && invite in db.invites && db.invites[invite].consumedBy.None? && !db.invites[invite].revoked
              && now < db.invites[invite].expiresAt
    ensures RevokeTx(db, invite, now).1.Err? ==> RevokeTx(db, invite, now).1 == Err(NotFound)
    ensures RevokeTx(db, invite, now).1.Err? ==> RevokeTx(db, invite, now).0 == db
    ensures RevokeTx(db, invite, now).1.Ok? ==>
              RevokeTx(db, invite, now).0 == db.(invites := db.invites[invite := db.invites[invite].(revoked := true)])
  {
  }

  /** A mint is refused exactly for an address that has an account, or for a code or a maker that cannot be. */
  lemma MintsIff(db: Ledger, hash: string, email: Option<string>, createdBy: Option<Id>, expiresAt: int)
    requires Inv(db)
    ensures var after, r := MintTx(db, hash, email, createdBy, expiresAt).0,
            MintTx(db, hash, email, createdBy, expiresAt).1;
            && (r == Err(AddressRegistered) <==>
                  email.Some? && exists a :: a in db.accounts && db.accounts[a].email == email)
            && (r.Ok? <==>
                  && (email.Some? ==> forall a | a in db.accounts :: db.accounts[a].email != email)
                  && (forall i | i in db.invites :: db.invites[i].codeHash != hash)
                  && (createdBy.Some? ==> createdBy.value in db.accounts))
            && (r.Err? ==> after == db && r.error in {AddressRegistered, Fault})
            && (r.Ok? ==> && r.value !in db.invites && after.accounts == db.accounts && after.nextId == db.nextId + 1
                          && after.invites
                             == db.invites[r.value := Invite(hash, email, createdBy, expiresAt, None, false)])
  {
    IdsBelow(db);
  }
}
