/** The part of the Kubernetes cluster the platform owns: one namespace an app, named by its slug. */
module Clusters {
  import opened Basics
  import opened Configuration
  import opened Tables
  import opened Runs
  import opened Invariant
  import opened History
  import opened Drives

  /** The pod template: the image it runs and the values its checksum was taken over. */
  datatype Workload = Workload(digest: string, values: map<string, string>)

  datatype Namespace = Namespace(created: int, fenced: bool, secret: Option<map<string, string>>,
      workload: Option<Workload>)

  type Cluster = map<string, Namespace>

  /** Nothing runs unpoliced, and nothing runs without the Secret it references. */
  predicate NamespaceOk(n: Namespace) {
    (n.secret.Some? ==> n.fenced) && (n.workload.Some? ==> n.secret.Some?)
  }

  /** Every namespace belongs to an app that exists, live or deleted, and was created in the past. */
  predicate ClusterOk(db: Tables, cluster: Cluster, now: int) {
    forall s | s in cluster :: SlugUsed(db, s) && cluster[s].created <= now && NamespaceOk(cluster[s])
  }

  /**
   * What anybody but this process may have done to the cluster meanwhile: torn down namespaces whose
   * app was deleted, and created empty ones, stamped then, for apps that were not.
   */
  predicate Spared(db: Tables, before: Cluster, since: int, later: Tables, after: Cluster) {
    && (forall s | s in before :: if s in after then after[s] == before[s] else Retired(later, s))
    && (forall s | s in after && s !in before :: !Retired(db, s) && after[s].created >= since)
  }

  /** The namespace is as this process left it, or its app has been deleted and it is gone. */
  predicate Stands(db: Tables, cluster: Cluster, slug: string, n: Namespace) {
    if slug in cluster then cluster[slug] == n else Retired(db, slug)
  }

  lemma SparedNothing(db: Tables, cluster: Cluster, since: int, later: Tables)
    ensures Spared(db, cluster, since, later, cluster)
  {
  }

  lemma SparedTwice(a: Tables, c0: Cluster, t0: int, b: Tables, c1: Cluster, t1: int, d: Tables, c2: Cluster)
    requires Spared(a, c0, t0, b, c1) && Spared(b, c1, t1, d, c2) && Evolves(a, b) && Evolves(b, d) && t0 <= t1
    ensures Spared(a, c0, t0, d, c2)
  {
    hide Evolves, Retired;
    forall s | s in c2 && s !in c0 ensures !Retired(a, s) && c2[s].created >= t0 {
      RetiredForever(a, b, s);
    }
    forall s | s in c0 ensures if s in c2 then c2[s] == c0[s] else Retired(d, s) {
      RetiredForever(b, d, s);
    }
  }

  lemma SparedOnward(a: Tables, c0: Cluster, since: int, b: Tables, c1: Cluster, d: Tables)
    requires Spared(a, c0, since, b, c1) && Evolves(a, b) && Evolves(b, d)
    ensures Evolves(a, d) && Spared(a, c0, since, d, c1)
  {
    hide Evolves, Spared;
    EvolvesTransitive(a, b, d);
    SparedNothing(b, c1, since, d);
    SparedTwice(a, c0, since, b, c1, since, d, c1);
  }

  lemma StillStands(db: Tables, before: Cluster, since: int, later: Tables, after: Cluster, slug: string, n: Namespace)
    requires Stands(db, before, slug, n) && Spared(db, before, since, later, after) && Evolves(db, later)
    ensures Stands(later, after, slug, n)
  {
  }

  lemma ClusterOkLater(db: Tables, cluster: Cluster, since: int, later: Tables, now: int)
    requires ClusterOk(db, cluster, since) && Evolves(db, later) && since <= now
    ensures ClusterOk(later, cluster, now)
  {
  }

  /** One more committed write: the run goes on, and the cluster is still made of apps that exist. */
  lemma Committed(start: Tables, trace: seq<Action>, db: Tables, a: Action, cluster: Cluster, now: int)
    requires Inv(start) && Legal(start, trace) && db == After(start, trace) && Established(start, trace, a)
    requires ClusterOk(db, cluster, now)
    ensures Legal(start, trace + [a]) && After(start, trace + [a]) == Apply(db, a)
    ensures Inv(db) && Inv(Apply(db, a)) && Evolves(db, Apply(db, a))
    ensures ClusterOk(Apply(db, a), cluster, now)
  {
    hide Inv, Apply, Guard, Composed, Evolves, ClusterOk;
    Extend(start, trace, a);
    InvOverRuns(start, trace);
    StepKeepsInv(db, a);
    StepEvolves(db, a);
    ClusterOkLater(db, cluster, now, Apply(db, a), now);
  }
}
