/** Why the reaper never takes a live app's namespace. */
module Reaping {
  import opened Basics
  import opened Tables
  import opened Runs
  import opened Invariant
  import opened History
  import opened Drives
  import opened Clusters
  import opened Driving

  /** Whatever has gone from a cluster, its app had been deleted. */
  predicate Gone(before: Cluster, db: Tables, now: Cluster) {
    forall s | s in before && s !in now :: Retired(db, s)
  }

  predicate AllRetired(slugs: set<string>, db: Tables) {
    forall s | s in slugs :: Retired(db, s)
  }

  /** Retired and not there, and so never there again. */
  predicate Absent(slugs: set<string>, db: Tables, cluster: Cluster) {
    forall s | s in slugs :: s !in cluster && Retired(db, s)
  }

  lemma GoneNow(a: Mark, b: Mark)
    requires HandsOff(a, b)
    ensures Gone(a.cluster, b.db, b.cluster)
  {
  }

  lemma GoneOn(before: Cluster, a: Mark, b: Mark, slug: string)
    requires Gone(before, a.db, a.cluster) && Later(a, b, {}) && HandsOff(a, b) && Retired(a.db, slug)
    ensures Gone(before, b.db, b.cluster) && Gone(before, b.db, b.cluster - {slug})
  {
    hide Only, Evolves, Retired;
    RetiredForever(a.db, b.db, slug);
    forall s | s in before && s !in b.cluster ensures Retired(b.db, s) {
      RetiredForever(a.db, b.db, s);
    }
  }

  lemma RetiredStays(a: Mark, b: Mark, slugs: set<string>)
    requires AllRetired(slugs, a.db) && Later(a, b, {})
    ensures AllRetired(slugs, b.db)
  {
  }

  lemma RetiredOne(slugs: set<string>, slug: string, db: Tables)
    requires AllRetired(slugs, db) && slug in slugs
    ensures Retired(db, slug)
  {
  }

  lemma AbsentOn(slugs: set<string>, a: Mark, b: Mark, slug: string)
    requires Later(a, b, {}) && HandsOff(a, b)
    ensures Absent(slugs, a.db, a.cluster) ==> Absent(slugs, b.db, b.cluster) && Absent(slugs, b.db, b.cluster - {slug})
  {
  }

  lemma AbsentToo(slugs: set<string>, slug: string, db: Tables, cluster: Cluster)
    requires Retired(db, slug)
    ensures Absent(slugs, db, cluster - {slug}) ==> Absent(slugs + {slug}, db, cluster - {slug})
  {
  }

  lemma NothingAbsent(db: Tables, cluster: Cluster)
    ensures Absent({}, db, cluster)
  {
  }

  lemma AbsentAll(due: set<string>, deleted: set<string>, db: Tables, cluster: Cluster)
    requires Absent(due - deleted, db, cluster) && Absent(deleted, db, cluster)
    ensures forall s | s in due :: s !in cluster
  {
  }

  lemma NotLive(db: Tables, slug: string)
    ensures LiveSlug(db, slug) <==> slug in set a | a in db.apps && !db.apps[a].deleted :: db.apps[a].slug
  {
  }

  lemma NoneLive(db: Tables, slugs: set<string>)
    requires Inv(db) && AllRetired(slugs, db)
    ensures forall s | s in slugs :: Retired(db, s) && !LiveSlug(db, s)
  {
  }

  /**
   * The heart of the reaper: a namespace listed as older than the grace was there when the live slugs
   * were read, so its app existed then; an app missing from that read is deleted, and stays deleted.
   */
  lemma CandidatesRetired(known: Mark, found: Mark, cutoff: int, live: set<string>)
    requires Inv(known.db) && ClusterOk(known.db, known.cluster, known.now) && cutoff <= known.now
    requires Later(known, found, {}) && HandsOff(known, found)
    requires live == set a | a in known.db.apps && !known.db.apps[a].deleted :: known.db.apps[a].slug
    ensures forall s | s in found.cluster && found.cluster[s].created < cutoff && s !in live :: Retired(found.db, s)
  {
    hide Inv, Only, Evolves, Retired;
    forall s | s in found.cluster && found.cluster[s].created < cutoff && s !in live ensures Retired(found.db, s) {
      assert s in known.cluster;
      LiveOrRetired(known.db, s);
      RetiredForever(known.db, found.db, s);
    }
  }

  /** A retired namespace old enough when the pass began is either listed or already gone. */
  lemma DueListed(began: Mark, known: Mark, found: Mark, cutoff: int, live: set<string>)
    requires Later(began, known, {}) && Later(began, found, {}) && HandsOff(began, found) && Inv(known.db)
    requires live == set a | a in known.db.apps && !known.db.apps[a].deleted :: known.db.apps[a].slug
    ensures Absent((set s | s in began.cluster && began.cluster[s].created < cutoff && Retired(began.db, s))
                   - ((set s | s in found.cluster && found.cluster[s].created < cutoff) - live), found.db,
                       found.cluster)
  {
    hide Inv, Only, Evolves, Retired;
    var due := set s | s in began.cluster && began.cluster[s].created < cutoff && Retired(began.db, s);
    var listed := (set s | s in found.cluster && found.cluster[s].created < cutoff) - live;
    forall s | s in due - listed ensures s !in found.cluster && Retired(found.db, s) {
      RetiredForever(began.db, known.db, s);
      RetiredForever(began.db, found.db, s);
      LiveOrRetired(known.db, s);
      NotLive(known.db, s);
    }
  }

  /** An app with a deployment in flight is live, so the reaper never takes its namespace. */
  lemma InFlightNeverReaped(db: Tables, d: Id, slug: string)
    requires Inv(db) && d in db.deployments && InFlight(db.deployments[d])
    requires db.deployments[d].app in db.apps && db.apps[db.deployments[d].app].slug == slug
    ensures LiveSlug(db, slug) && !Retired(db, slug)
  {
  }
}
