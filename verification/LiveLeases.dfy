/** At most one live lease: the exact condition, over all behaviours of the queue. */
module LiveLeases {
  import opened Options
  import opened QueueStore
  import opened QueueMachine

  ghost predicate OneLive(s: State) {
    forall i, j :: i in s.db.jobs && j in s.db.jobs && Live(s.db.jobs[i], s.now) && Live(s.db.jobs[j], s.now) ==> i == j
  }

  /**
   What the NOT EXISTS of the claim query does not guard: while some lease is live, an expired job is claimed, or the
   owner of an expired job renews it.
   */
  ghost predicate Revives(s: State, a: Action) {
    && AnyLive(s.db.jobs, s.now)
    && ((a.Claim? && a.job in s.db.jobs && Expired(s.db.jobs[a.job], s.now))
        || (a.Renew? && Owns(s.db, a.job, a.owner) && !Live(s.db.jobs[a.job], s.now)))
  }

  /** Any other statement leaves live jobs as they are or ends them. */
  lemma NothingElseRevives(s: State, a: Action, j: JobId)
    requires Enabled(s, a) && !a.Claim? && !a.Renew?
    ensures var t := Apply(s, a);
            j in t.db.jobs && Live(t.db.jobs[j], t.now) ==> j in s.db.jobs && Live(s.db.jobs[j], s.now)
  {
    hide SourcesOf, Sum, FailedIn, DeliveredIn, FirstClaimable;
  }

  lemma ClaimLives(s: State, a: Action)
    requires a.Claim? && Enabled(s, a) && a.lease >= 0
    ensures var t := Apply(s, a);
            && a.job in t.db.jobs && Live(t.db.jobs[a.job], t.now)
            && forall j :: j != a.job ==>
                (j in t.db.jobs <==> j in s.db.jobs) && (j in s.db.jobs ==> t.db.jobs[j] == s.db.jobs[j])
  {
  }

  lemma RenewalLives(s: State, a: Action)
    requires a.Renew? && Owns(s.db, a.job, a.owner) && a.lease >= 0
    ensures var t := Apply(s, a);
            && a.job in t.db.jobs && Live(t.db.jobs[a.job], t.now)
            && forall j :: j != a.job ==>
                (j in t.db.jobs <==> j in s.db.jobs) && (j in s.db.jobs ==> t.db.jobs[j] == s.db.jobs[j])
  {
  }

  /** One job has just become live; the others are as they were. */
  lemma OneMoreLive(s: State, t: State, j: JobId)
    requires t.now == s.now && j in s.db.jobs && j in t.db.jobs && Live(t.db.jobs[j], t.now) && OneLive(s)
    requires forall i :: i != j ==>
             (i in t.db.jobs <==> i in s.db.jobs) && (i in s.db.jobs ==> t.db.jobs[i] == s.db.jobs[i])
    ensures OneLive(t) <==> Live(s.db.jobs[j], s.now) || !AnyLive(s.db.jobs, s.now)
  {
    if !Live(s.db.jobs[j], s.now) && AnyLive(s.db.jobs, s.now) {
      var i :| i in s.db.jobs && Live(s.db.jobs[i], s.now);
      assert i in t.db.jobs && Live(t.db.jobs[i], t.now);
    }
  }

  /** One step: two live leases come about exactly by reviving. */
  lemma StepKeepsOneLiveIff(s: State, a: Action)
    requires OneLive(s) && Enabled(s, a) && ForwardLease(a)
    ensures OneLive(Apply(s, a)) <==> !Revives(s, a)
  {
    hide Apply, OneLive, FirstClaimable;
    var t := Apply(s, a);
    if a.Claim? {
      ClaimLives(s, a);
      ClaimTime(s, a);
      ClaimedRowWas(s, a);
      OneMoreLive(s, t, a.job);
    } else if a.Renew? && Owns(s.db, a.job, a.owner) {
      RenewalLives(s, a);
      RenewTime(s, a);
      OneMoreLive(s, t, a.job);
    } else if a.Renew? {
      RenewTime(s, a);
    } else {
      forall j ensures j in t.db.jobs && Live(t.db.jobs[j], t.now) ==> j in s.db.jobs && Live(s.db.jobs[j], s.now) {
        NothingElseRevives(s, a, j);
      }
      FewerLive(s, t);
    }
  }

  lemma FewerLive(s: State, t: State)
    requires OneLive(s)
    requires forall j :: j in t.db.jobs && Live(t.db.jobs[j], t.now) ==> j in s.db.jobs && Live(s.db.jobs[j], s.now)
    ensures OneLive(t)
  {
  }

  lemma ClaimTime(s: State, a: Action)
    requires a.Claim?
    ensures Apply(s, a).now == s.now
  {
  }

  lemma RenewTime(s: State, a: Action)
    requires a.Renew?
    ensures Apply(s, a).now == s.now
    ensures !Owns(s.db, a.job, a.owner) ==> Apply(s, a) == s
  {
  }

  lemma ClaimedRowWas(s: State, a: Action)
    requires a.Claim? && Enabled(s, a)
    ensures a.job in s.db.jobs && !Live(s.db.jobs[a.job], s.now)
    ensures Expired(s.db.jobs[a.job], s.now) || !AnyLive(s.db.jobs, s.now)
  {
  }

  lemma {:induction false} OneLiveSoFar(b: seq<State>, acts: seq<Action>, n: nat)
    requires Behavior(b, acts) && Forward(acts) && n <= |acts|
    requires forall k :: 0 <= k < n ==> !Revives(b[k], acts[k])
    ensures OneLive(b[n])
  {
    hide Revives, Enabled, Apply, Live;
    if n > 0 {
      OneLiveSoFar(b, acts, n - 1);
      assert StepAt(b, acts, n - 1) && ForwardLease(acts[n - 1]);
      StepKeepsOneLiveIff(b[n - 1], acts[n - 1]);
      StepResult(b, acts, n - 1);
    }
  }

  /**
   At most one job has a live lease in every state of a behaviour if and only if no step claims an expired job, or
   renews the expired lease of one, while another lease is live.
   */
  lemma OneLiveIffNothingRevived(b: seq<State>, acts: seq<Action>)
    requires Behavior(b, acts) && Forward(acts)
    ensures (forall n :: 0 <= n <= |acts| ==> OneLive(b[n])) <==>
            (forall n :: 0 <= n < |acts| ==> !Revives(b[n], acts[n]))
  {
    hide Revives, Enabled, Apply, OneLive;
    if forall n :: 0 <= n < |acts| ==> !Revives(b[n], acts[n]) {
      forall n | 0 <= n <= |acts| ensures OneLive(b[n]) {
        OneLiveSoFar(b, acts, n);
      }
    }
    if forall n :: 0 <= n <= |acts| ==> OneLive(b[n]) {
      forall n | 0 <= n < |acts| ensures !Revives(b[n], acts[n]) {
        assert StepAt(b, acts, n) && ForwardLease(acts[n]) && OneLive(b[n]) && OneLive(b[n + 1]);
        StepKeepsOneLiveIff(b[n], acts[n]);
        StepResult(b, acts, n);
      }
    }
  }
}
