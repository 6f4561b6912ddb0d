/** Leases on one job, with requeueing and skipped rows allowed, and how far renewal may lag behind. */
module LeaseExclusivity {
  import opened Options
  import opened QueueStore
  import opened QueueMachine
  import opened WitnessRows

  /** The lease w obtained on j by its last successful claim or renewal has not run out. */
  predicate Holds(s: State, w: Owner, j: JobId) {
    (w, j) in s.leases && s.leases[(w, j)] >= s.now
  }

  /** A FinishJob that has something to aggregate while another owner holds the job. */
  ghost predicate StaleFinish(s: State, a: Action) {
    a.Finish? && WorkerOf(s, a.owner).Working? &&
    var j := WorkerOf(s, a.owner).job;
    && j in s.db.jobs && JobSources(s.db, j) != map[]
    && exists v :: v != a.owner && Holds(s, v, j)
  }

  ghost predicate FencedBehavior(b: seq<State>, acts: seq<Action>) {
    Behavior(b, acts) && forall n :: 0 <= n < |acts| ==> !StaleFinish(b[n], acts[n])
  }

  /** The row of j names w as the owner of a running job, with the expiry w believes in. */
  predicate Backed(s: State, w: Owner, j: JobId)
    requires (w, j) in s.leases
  {
    Owns(s.db, j, w) && s.db.jobs[j].expires == Some(s.leases[(w, j)])
  }

  ghost predicate Inv(s: State) {
    forall w, j :: (w, j) in s.leases && s.leases[(w, j)] >= s.now ==> Backed(s, w, j)
  }

  lemma ClaimKeepsInv(s: State, a: Action)
    requires Inv(s) && a.Claim? && Enabled(s, a)
    ensures Inv(Apply(s, a))
  {
    var s' := Apply(s, a);
    forall w, j | (w, j) in s'.leases && s'.leases[(w, j)] >= s'.now ensures Backed(s', w, j) {
      if (w, j) != (a.owner, a.job) {
        assert Backed(s, w, j);
      }
    }
  }

  lemma RenewKeepsInv(s: State, a: Action)
    requires Inv(s) && a.Renew?
    ensures Inv(Apply(s, a))
  {
    var s' := Apply(s, a);
    forall w, j | (w, j) in s'.leases && s'.leases[(w, j)] >= s'.now ensures Backed(s', w, j) {
      if (w, j) != (a.owner, a.job) {
        assert Backed(s, w, j);
      }
    }
  }

  /** FinishJob ends the hold of every owner but keeps the other jobs. */
  lemma FinishKeepsInv(s: State, a: Action)
    requires Inv(s) && a.Finish? && Enabled(s, a) && !StaleFinish(s, a)
    ensures Inv(Apply(s, a))
  {
    hide SourcesOf, Sum, FailedIn, DeliveredIn;
    var s' := Apply(s, a);
    forall w, j | (w, j) in s'.leases && s'.leases[(w, j)] >= s'.now ensures Backed(s', w, j) {
      assert Backed(s, w, j);
      assert Holds(s, w, j);
    }
  }

  lemma StaleFinishUnseats(s: State, a: Action)
    requires Enabled(s, a) && StaleFinish(s, a)
    ensures exists v, j :: Holds(Apply(s, a), v, j) && !Owns(Apply(s, a).db, j, v)
  {
    hide SourcesOf, Sum, FailedIn, DeliveredIn;
    var j := WorkerOf(s, a.owner).job;
    var v :| v != a.owner && Holds(s, v, j);
    assert Holds(Apply(s, a), v, j);
  }

  lemma OtherStepKeepsInv(s: State, a: Action)
    requires Inv(s) && Enabled(s, a) && !a.Claim? && !a.Renew? && !a.Finish?
    ensures Inv(Apply(s, a))
  {
    var s' := Apply(s, a);
    forall w, j | (w, j) in s'.leases && s'.leases[(w, j)] >= s'.now ensures Backed(s', w, j) {
      assert Backed(s, w, j);
    }
  }

  /** One step: the holders keep owning their jobs exactly when it is not a stale FinishJob. */
  lemma StepKeepsInvIff(s: State, a: Action)
    requires Inv(s) && Enabled(s, a)
    ensures Inv(Apply(s, a)) <==> !StaleFinish(s, a)
  {
    hide Enabled, Apply, StaleFinish;
    if a.Claim? {
      ClaimKeepsInv(s, a);
      OnlyFinishIsStale(s, a);
    } else if a.Renew? {
      RenewKeepsInv(s, a);
      OnlyFinishIsStale(s, a);
    } else if a.Finish? {
      if StaleFinish(s, a) {
        StaleFinishUnseats(s, a);
        var v, j :| Holds(Apply(s, a), v, j) && !Owns(Apply(s, a).db, j, v);
        assert !Backed(Apply(s, a), v, j);
      } else {
        FinishKeepsInv(s, a);
      }
    } else {
      OtherStepKeepsInv(s, a);
      OnlyFinishIsStale(s, a);
    }
  }

  lemma OnlyFinishIsStale(s: State, a: Action)
    ensures StaleFinish(s, a) ==> a.Finish?
  {
  }

  lemma {:induction false} InvAlong(b: seq<State>, acts: seq<Action>, n: nat)
    requires FencedBehavior(b, acts) && n < |b|
    ensures Inv(b[n])
  {
    hide Enabled, Apply, StaleFinish;
    if n > 0 {
      InvAlong(b, acts, n - 1);
      assert StepAt(b, acts, n - 1) && !StaleFinish(b[n - 1], acts[n - 1]);
      StepKeepsInvIff(b[n - 1], acts[n - 1]);
      StepResult(b, acts, n - 1);
    }
  }

  /** Whoever holds an unexpired lease owns the running job, and nobody can claim it. */
  lemma HolderOwns(b: seq<State>, acts: seq<Action>, n: nat, w: Owner, j: JobId)
    requires FencedBehavior(b, acts) && n < |b| && Holds(b[n], w, j)
    ensures Owns(b[n].db, j, w) && !Claimable(b[n].db.jobs, j, b[n].now)
  {
    hide StaleFinish, Behavior;
    InvAlong(b, acts, n);
    assert Backed(b[n], w, j);
  }

  ghost predicate HoldersOwn(s: State) {
    forall w, j :: Holds(s, w, j) ==> Owns(s.db, j, w)
  }

  /**
   In every state of a behaviour each holder of an unexpired lease owns its running job, if and only if no job is
   finished while another owner holds it.
   */
  lemma HoldersOwnIffNoStaleFinish(b: seq<State>, acts: seq<Action>)
    requires Behavior(b, acts)
    ensures (forall n :: 0 <= n < |b| ==> HoldersOwn(b[n])) <==>
            (forall n :: 0 <= n < |acts| ==> !StaleFinish(b[n], acts[n]))
  {
    hide StaleFinish, Enabled, Apply, Holds, Owns;
    if forall n :: 0 <= n < |acts| ==> !StaleFinish(b[n], acts[n]) {
      forall n | 0 <= n < |b| ensures HoldersOwn(b[n]) {
        forall w, j | Holds(b[n], w, j) ensures Owns(b[n].db, j, w) {
          HolderOwns(b, acts, n, w, j);
        }
      }
    }
    if forall n :: 0 <= n < |b| ==> HoldersOwn(b[n]) {
      forall n | 0 <= n < |acts| ensures !StaleFinish(b[n], acts[n]) {
        assert StepAt(b, acts, n) && HoldersOwn(b[n + 1]);
        StepResult(b, acts, n);
        if StaleFinish(b[n], acts[n]) {
          StaleFinishUnseats(b[n], acts[n]);
        }
      }
    }
  }

  /** Two owners never both hold an unexpired lease on one job; no one can claim the held job, no other can renew it. */
  lemma OneHolderPerJob(b: seq<State>, acts: seq<Action>, n: nat, v: Owner, w: Owner, j: JobId)
    requires FencedBehavior(b, acts) && n < |b|
    requires v != w && Holds(b[n], w, j)
    ensures !Holds(b[n], v, j)
    ensures !Claimable(b[n].db.jobs, j, b[n].now)
    ensures forall lease :: Apply(b[n], Renew(v, j, lease)) == b[n]
  {
    hide StaleFinish, Behavior;
    HolderOwns(b, acts, n, w, j);
    InvAlong(b, acts, n);
    assert Holds(b[n], v, j) ==> Backed(b[n], v, j);
  }

  // ----- At most one holder -----

  ghost predicate OneHolder(s: State) {
    forall v, w, j :: Holds(s, v, j) && Holds(s, w, j) ==> v == w
  }

  /** A claim of a job on which the lease of another owner has not run out. */
  ghost predicate ClaimsHeld(s: State, a: Action) {
    a.Claim? && exists v :: v != a.owner && Holds(s, v, a.job)
  }

  /** Nobody but the owner of a job, if it has one, holds a lease on it. */
  ghost predicate NoStranger(s: State) {
    forall v, j :: Holds(s, v, j) ==> j in s.db.jobs && (s.db.jobs[j].owner.None? || s.db.jobs[j].owner == Some(v))
  }

  lemma ClaimKeepsOneHolder(s: State, a: Action)
    requires NoStranger(s) && OneHolder(s) && a.Claim? && Enabled(s, a) && !ClaimsHeld(s, a)
    ensures NoStranger(Apply(s, a)) && OneHolder(Apply(s, a))
  {
    var t := Apply(s, a);
    forall v, j | Holds(t, v, j) ensures (v == a.owner && j == a.job) || (Holds(s, v, j) && j != a.job) {
      if (v, j) != (a.owner, a.job) {
        assert Holds(s, v, j);
      }
    }
  }

  lemma RenewKeepsOneHolder(s: State, a: Action)
    requires NoStranger(s) && OneHolder(s) && a.Renew?
    ensures NoStranger(Apply(s, a)) && OneHolder(Apply(s, a))
  {
    var t := Apply(s, a);
    forall v, j | Holds(t, v, j) ensures (v == a.owner && j == a.job && Owns(s.db, j, v)) || Holds(s, v, j) {
      if (v, j) != (a.owner, a.job) {
        assert Holds(s, v, j);
      }
    }
  }

  /** Every other statement grants no lease, and gives a job no owner. */
  lemma OtherGrantsNothing(s: State, a: Action, v: Owner, j: JobId)
    requires Enabled(s, a) && !a.Claim? && !a.Renew? && Holds(Apply(s, a), v, j)
    ensures Holds(s, v, j)
    ensures var t := Apply(s, a);
            j in s.db.jobs ==>
              j in t.db.jobs && (t.db.jobs[j].owner.None? || t.db.jobs[j].owner == s.db.jobs[j].owner)
  {
    hide SourcesOf, Sum, FailedIn, DeliveredIn;
  }

  lemma OtherKeepsOneHolder(s: State, a: Action)
    requires NoStranger(s) && OneHolder(s) && Enabled(s, a) && !a.Claim? && !a.Renew?
    ensures NoStranger(Apply(s, a)) && OneHolder(Apply(s, a))
  {
    hide Apply, Enabled, Holds;
    var t := Apply(s, a);
    forall v, j | Holds(t, v, j)
      ensures Holds(s, v, j) && j in t.db.jobs && (t.db.jobs[j].owner.None? || t.db.jobs[j].owner == Some(v))
    {
      OtherGrantsNothing(s, a, v, j);
    }
  }

  lemma ClaimAddsHolder(s: State, a: Action)
    requires a.Claim? && a.lease >= 0 && ClaimsHeld(s, a)
    ensures !OneHolder(Apply(s, a))
  {
    var v :| v != a.owner && Holds(s, v, a.job);
    assert Holds(Apply(s, a), v, a.job) && Holds(Apply(s, a), a.owner, a.job);
  }

  lemma OnlyClaims(s: State, a: Action)
    ensures ClaimsHeld(s, a) ==> a.Claim?
  {
  }

  lemma {:induction false} OneHolderSoFar(b: seq<State>, acts: seq<Action>, n: nat)
    requires Behavior(b, acts) && n <= |acts| && forall k :: 0 <= k < n ==> !ClaimsHeld(b[k], acts[k])
    ensures NoStranger(b[n]) && OneHolder(b[n])
  {
    hide Enabled, Apply, NoStranger, OneHolder, ClaimsHeld;
    if n == 0 {
      NobodyHolds(b[0]);
    } else {
      OneHolderSoFar(b, acts, n - 1);
      assert StepAt(b, acts, n - 1) && !ClaimsHeld(b[n - 1], acts[n - 1]);
      StepResult(b, acts, n - 1);
      if acts[n - 1].Claim? {
        ClaimKeepsOneHolder(b[n - 1], acts[n - 1]);
      } else if acts[n - 1].Renew? {
        RenewKeepsOneHolder(b[n - 1], acts[n - 1]);
      } else {
        OtherKeepsOneHolder(b[n - 1], acts[n - 1]);
      }
    }
  }

  lemma NobodyHolds(s: State)
    requires Init(s)
    ensures NoStranger(s) && OneHolder(s)
  {
  }

  /**
   No job ever has two holders of unexpired leases if and only if no job is claimed while the lease of another owner on
   it has not run out. A stale FinishJob alone does no harm here; the requeue and the claim after it do.
   */
  lemma OneHolderIffNoHeldClaim(b: seq<State>, acts: seq<Action>)
    requires Behavior(b, acts) && Forward(acts)
    ensures (forall n :: 0 <= n <= |acts| ==> OneHolder(b[n])) <==>
            (forall n :: 0 <= n < |acts| ==> !ClaimsHeld(b[n], acts[n]))
  {
    hide Enabled, Apply, OneHolder, ClaimsHeld;
    if forall n :: 0 <= n < |acts| ==> !ClaimsHeld(b[n], acts[n]) {
      forall n | 0 <= n <= |acts| ensures OneHolder(b[n]) {
        OneHolderSoFar(b, acts, n);
      }
    }
    if forall n :: 0 <= n <= |acts| ==> OneHolder(b[n]) {
      forall n | 0 <= n < |acts| ensures !ClaimsHeld(b[n], acts[n]) {
        assert ForwardLease(acts[n]) && OneHolder(b[n + 1]);
        StepResult(b, acts, n);
        OnlyClaims(b[n], acts[n]);
        if ClaimsHeld(b[n], acts[n]) {
          ClaimAddsHolder(b[n], acts[n]);
        }
      }
    }
  }

  // ----- After a takeover -----

  /** v is not the owner of the existing job j. */
  predicate NotOwner(s: State, v: Owner, j: JobId) {
    j in s.db.jobs && s.db.jobs[j].owner != Some(v)
  }

  lemma NotOwnerStep(s: State, a: Action, v: Owner, j: JobId)
    requires Enabled(s, a) && NotOwner(s, v, j) && !(a.Claim? && a.owner == v && a.job == j)
    ensures NotOwner(Apply(s, a), v, j)
  {
    hide SourcesOf, Sum, FailedIn, DeliveredIn, FirstClaimable;
  }

  lemma {:induction false} NotOwnerSince(b: seq<State>, acts: seq<Action>, c: nat, n: nat, v: Owner, w: Owner, j: JobId)
    requires Behavior(b, acts) && c < n < |b| && v != w
    requires acts[c].Claim? && acts[c].owner == w && acts[c].job == j
    requires forall k :: c < k < n ==> !(acts[k].Claim? && acts[k].owner == v && acts[k].job == j)
    ensures NotOwner(b[n], v, j)
  {
    assert StepAt(b, acts, n - 1);
    StepResult(b, acts, n - 1);
    if n == c + 1 {
      TakenOver(b[c], acts[c], v, j);
    } else {
      NotOwnerSince(b, acts, c, n - 1, v, w, j);
      NotOwnerStep(b[n - 1], acts[n - 1], v, j);
    }
  }

  lemma TakenOver(s: State, a: Action, v: Owner, j: JobId)
    requires a.Claim? && Enabled(s, a) && a.job == j && a.owner != v
    ensures NotOwner(Apply(s, a), v, j)
  {
  }

  /**
   After a takeover every renewal by the old owner fails: from a claim of j by another owner on, through expiry, finish
   and requeue, until v claims j again. No discipline is needed.
   */
  lemma RenewalsFailAfterTakeover(b: seq<State>, acts: seq<Action>, c: nat, n: nat, v: Owner, w: Owner, j: JobId)
    requires Behavior(b, acts) && c < n < |b| && v != w
    requires acts[c].Claim? && acts[c].owner == w && acts[c].job == j
    requires forall k :: c < k < n ==> !(acts[k].Claim? && acts[k].owner == v && acts[k].job == j)
    ensures !Owns(b[n].db, j, v) && forall lease :: Apply(b[n], Renew(v, j, lease)) == b[n]
  {
    hide Behavior;
    NotOwnerSince(b, acts, c, n, v, w, j);
  }

  // ----- Timely renewal; the clock counts nanoseconds -----

  const SECOND: int := 1_000_000_000

  /** Ticker interval of renewLease: a third of the lease, at least a second. */
  function RenewInterval(lease: int): int {
    if lease / 3 < SECOND then SECOND else lease / 3
  }

  /** What a claim or renewal grants: whole seconds. */
  function Granted(lease: int): int {
    (lease / SECOND) * SECOND
  }

  /** The ticker runs at a third of the lease, to the nanosecond, or at one second; a grant drops the started second. */
  lemma IntervalMeaning(lease: nat)
    ensures lease >= 3 * SECOND ==> 3 * RenewInterval(lease) <= lease < 3 * RenewInterval(lease) + 3
    ensures lease < 3 * SECOND ==> RenewInterval(lease) == SECOND
    ensures Granted(lease) <= lease < Granted(lease) + SECOND && Granted(lease) % SECOND == 0
  {
  }

  /** By how much a renewal may come late. */
  function Slack(lease: int): int {
    Granted(lease) - RenewInterval(lease)
  }

  /**
   The lease outlives the ticker interval exactly from one second on; from three seconds on one lost tick is harmless.
   */
  lemma SlackCoversLostTick(lease: nat)
    ensures Slack(lease) >= 0 <==> lease >= SECOND
    ensures lease >= 3 * SECOND ==> Slack(lease) >= RenewInterval(lease)
  {
  }

  predicate Finishes(s: State, a: Action, j: JobId) {
    a.Finish? && WorkerOf(s, a.owner).Working? && WorkerOf(s, a.owner).job == j
  }

  predicate Touches(a: Action, w: Owner, j: JobId) {
    (a.Claim? && a.owner == w && a.job == j) || (a.Renew? && a.owner == w && a.job == j)
  }

  /** When w last claimed or renewed j before state n, counting from its claim at step c. */
  ghost function LastTouch(b: seq<State>, acts: seq<Action>, c: nat, n: nat, w: Owner, j: JobId): int
    requires c < n < |b| && |b| == |acts| + 1
  {
    if n == c + 1 || Touches(acts[n - 1], w, j) then b[n - 1].now else LastTouch(b, acts, c, n - 1, w, j)
  }

  /**
   From its claim at step c to state n, w does not finish j, is granted the same length, and leaves gaps of at most
   `gap`.
   */
  ghost predicate KeepsRenewing(b: seq<State>, acts: seq<Action>, c: nat, n: nat, w: Owner, j: JobId, granted: int,
                                gap: int)
    requires c < n < |b| && |b| == |acts| + 1
  {
    && acts[c].Claim? && Touches(acts[c], w, j)
    && (forall k :: c <= k < n && Touches(acts[k], w, j) ==> acts[k].lease == granted)
    && (forall k :: c < k < n ==> !(Finishes(b[k], acts[k], j) && acts[k].owner == w))
    && (forall k :: c < k <= n ==> b[k].now - LastTouch(b, acts, c, k, w, j) <= gap)
  }

  /** One step of the owner's lease: granted anew from the current time, or left alone. */
  lemma LeaseStep(s: State, a: Action, w: Owner, j: JobId, granted: int)
    requires Touches(a, w, j) ==> a.lease == granted && (a.Claim? || Owns(s.db, j, w))
    requires !(Finishes(s, a, j) && a.owner == w)
    requires Touches(a, w, j) || (w, j) in s.leases
    ensures var s' := Apply(s, a);
            (w, j) in s'.leases && s'.leases[(w, j)] == if Touches(a, w, j) then s.now + granted else s.leases[(w, j)]
  {
  }

  /** The lease of j by w runs until its last touch plus what is granted. */
  ghost predicate LeaseFollows(b: seq<State>, acts: seq<Action>, c: nat, n: nat, w: Owner, j: JobId, granted: int)
    requires c < n < |b| && |b| == |acts| + 1
  {
    (w, j) in b[n].leases && b[n].leases[(w, j)] == LastTouch(b, acts, c, n, w, j) + granted
  }

  lemma NextLease(b: seq<State>, acts: seq<Action>, c: nat, n: nat, w: Owner, j: JobId, granted: int, gap: int)
    requires c < n < |b| && |b| == |acts| + 1 && gap <= granted && b[n] == Apply(b[n - 1], acts[n - 1])
    requires KeepsRenewing(b, acts, c, n, w, j, granted, gap)
    requires n > c + 1 ==> LeaseFollows(b, acts, c, n - 1, w, j, granted) && Owns(b[n - 1].db, j, w)
    ensures Holds(b[n], w, j) && LeaseFollows(b, acts, c, n, w, j, granted)
  {
    LeaseStep(b[n - 1], acts[n - 1], w, j, granted);
    assert b[n].now - LastTouch(b, acts, c, n, w, j) <= gap;
  }

  lemma RenewingSoFar(b: seq<State>, acts: seq<Action>, c: nat, n: nat, w: Owner, j: JobId, granted: int, gap: int)
    requires c + 1 < n < |b| && |b| == |acts| + 1 && KeepsRenewing(b, acts, c, n, w, j, granted, gap)
    ensures KeepsRenewing(b, acts, c, n - 1, w, j, granted, gap)
  {
  }

  /** The row of a held job names its holder, until a FinishJob. */
  lemma BackedStep(s: State, a: Action, w: Owner, j: JobId)
    requires Enabled(s, a) && (w, j) in s.leases && Holds(s, w, j) && Backed(s, w, j)
    requires (w, j) in Apply(s, a).leases && !(Finishes(s, a, j) && JobSources(s.db, j) != map[])
    ensures Backed(Apply(s, a), w, j)
  {
    hide SourcesOf, Sum, FailedIn, DeliveredIn;
  }

  lemma BackedByClaim(s: State, a: Action)
    requires a.Claim? && Enabled(s, a)
    ensures (a.owner, a.job) in Apply(s, a).leases && Backed(Apply(s, a), a.owner, a.job)
  {
  }

  /** Between its claim and state n, nobody else finishes j while w holds it. */
  ghost predicate NotFinishedByOthers(b: seq<State>, acts: seq<Action>, c: nat, n: nat, j: JobId)
    requires c < n < |b| && |b| == |acts| + 1
  {
    forall k :: c < k < n ==> !(Finishes(b[k], acts[k], j) && StaleFinish(b[k], acts[k]))
  }

  lemma OthersFinishIsStale(s: State, a: Action, w: Owner, j: JobId)
    requires Holds(s, w, j) && j in s.db.jobs && Finishes(s, a, j) && a.owner != w && JobSources(s.db, j) != map[]
    ensures StaleFinish(s, a)
  {
  }

  lemma {:induction false} RenewedLeaseHolds(b: seq<State>, acts: seq<Action>, c: nat, n: nat, w: Owner, j: JobId,
                                             granted: int, gap: int)
    requires Behavior(b, acts) && c < n < |b| && gap <= granted && NotFinishedByOthers(b, acts, c, n, j)
    requires KeepsRenewing(b, acts, c, n, w, j, granted, gap)
    ensures Holds(b[n], w, j) && LeaseFollows(b, acts, c, n, w, j, granted) && Backed(b[n], w, j)
  {
    hide Enabled, Apply, LastTouch, Init, Finishes, StaleFinish, JobSources, Touches;
    assert StepAt(b, acts, n - 1);
    StepResult(b, acts, n - 1);
    if n == c + 1 {
      ClaimedBy(acts[c], w, j);
      BackedByClaim(b[c], acts[c]);
      NextLease(b, acts, c, n, w, j, granted, gap);
    } else {
      RenewingSoFar(b, acts, c, n, w, j, granted, gap);
      RenewedLeaseHolds(b, acts, c, n - 1, w, j, granted, gap);
      NextLease(b, acts, c, n, w, j, granted, gap);
      if Finishes(b[n - 1], acts[n - 1], j) && JobSources(b[n - 1].db, j) != map[] {
        OthersFinishIsStale(b[n - 1], acts[n - 1], w, j);
      }
      BackedStep(b[n - 1], acts[n - 1], w, j);
    }
  }

  lemma ClaimedBy(a: Action, w: Owner, j: JobId)
    requires a.Claim? && Touches(a, w, j)
    ensures a.owner == w && a.job == j
  {
  }

  /**
   A worker that renews in time never has its job taken: no claim of the job is possible until it finishes, unless
   another worker finishes this job.
   */
  lemma TimelyRenewalKeepsJob(b: seq<State>, acts: seq<Action>, c: nat, n: nat, w: Owner, j: JobId, lease: int)
    requires Behavior(b, acts) && c < n < |b| && NotFinishedByOthers(b, acts, c, n, j)
    requires KeepsRenewing(b, acts, c, n, w, j, Granted(lease), RenewInterval(lease) + Slack(lease))
    ensures !Claimable(b[n].db.jobs, j, b[n].now) && Owns(b[n].db, j, w)
  {
    hide Behavior, NotFinishedByOthers, KeepsRenewing, LeaseFollows;
    RenewedLeaseHolds(b, acts, c, n, w, j, Granted(lease), RenewInterval(lease) + Slack(lease));
  }

  // ----- Why a stale FinishJob matters -----

  const ROW: JobRow := QueuedJob(0)
  const SOURCE: SourceRow := QueuedSource(1)
  const READ: seq<Snapshot> := [Snapshot(7, SOURCE)]
  const BY_A: JobRow := ClaimedRow(ROW, "a", 0, 5)
  const BY_B: JobRow := ClaimedRow(BY_A, "b", 6, 5)
  const FAILED: JobRow := FinishedRow(BY_B, ZERO, 1, 0, 6)
  const BY_C: JobRow := ClaimedRow(ROW, "c", 6, 5)

  /** The owner a loses its lease to b, goes on, and finishes the job as failed; it is requeued and c claims it. */
  function StaleAction(n: nat): Action {
    if n == 0 then Create(1, ROW, map[7 := SOURCE])
    else if n == 1 then Claim("a", 1, 5, READ, {})
    else if n == 2 then Tick(6)
    else if n == 3 then Claim("b", 1, 5, READ, {})
    else if n == 4 then Start("a")
    else if n == 5 then Save("a", SourceFailed, ZERO, "")
    else if n == 6 then Finish("a")
    else if n == 7 then Requeue(1)
    else Claim("c", 1, 5, READ, {})
  }

  function StaleDb(n: nat): Db {
    var source :=
      if n <= 4 || n >= 8 then SOURCE
      else if n == 5 then StartedSource(SOURCE)
      else SavedSource(StartedSource(SOURCE), SourceFailed, ZERO, "");
    var row :=
      if n <= 1 || n == 8 then ROW
      else if n <= 3 then BY_A
      else if n <= 6 then BY_B
      else if n == 7 then FAILED
      else BY_C;
    if n == 0 then Db(map[], map[]) else Db(map[1 := row], map[7 := source])
  }

  function StaleWorkers(n: nat): map<Owner, Worker> {
    var a := if n <= 4 then Working(1, READ, 0, false) else if n == 5 then Working(1, READ, 0, true)
             else if n == 6 then Working(1, READ, 1, false) else Idle;
    if n <= 1 then map[] else if n <= 3 then map["a" := a]
    else if n <= 8 then map["a" := a, "b" := Working(1, READ, 0, false)]
    else map["a" := a, "b" := Working(1, READ, 0, false), "c" := Working(1, READ, 0, false)]
  }

  function StaleLeases(n: nat): map<(Owner, JobId), int> {
    if n <= 1 then map[]
    else if n <= 3 then map[("a", 1) := 5]
    else if n <= 6 then map[("a", 1) := 5, ("b", 1) := 11]
    else if n <= 8 then map[("b", 1) := 11]
    else map[("b", 1) := 11, ("c", 1) := 11]
  }

  function StaleState(n: nat): State {
    State(if n <= 2 then 0 else 6, StaleDb(n), StaleWorkers(n),
          if n == 0 then Db(map[], map[]) else Db(map[1 := ROW], map[7 := SOURCE]),
          if n == 0 then [] else [1], if n <= 1 then [] else [1], if n <= 6 then [] else [1], StaleLeases(n))
  }

  ghost predicate StaleStepOk(n: nat) {
    && Enabled(StaleState(n), StaleAction(n)) && Apply(StaleState(n), StaleAction(n)) == StaleState(n + 1)
    && (n != 6 ==> !StaleFinish(StaleState(n), StaleAction(n)))
  }

  lemma StaleCreate()
    ensures StaleStepOk(0)
  {
    assert 7 in map[7 := SOURCE];
  }

  lemma NobodyLive(n: nat)
    requires n == 1 || n == 3 || n == 8
    ensures FirstClaimable(StaleState(n).db.jobs, 1, StaleState(n).now, {})
  {
    var jobs := StaleState(n).db.jobs;
    assert 1 in jobs && jobs.Keys == {1};
    assert !AnyLive(jobs, StaleState(n).now);
  }

  lemma StaleFirstClaim()
    ensures StaleStepOk(1)
  {
    NobodyLive(1);
    hide FirstClaimable;
  }

  lemma StaleTakeover()
    ensures StaleStepOk(3)
  {
    NobodyLive(3);
    hide FirstClaimable;
  }

  lemma StaleLastClaim()
    ensures StaleStepOk(8)
  {
    NobodyLive(8);
    hide FirstClaimable;
  }

  lemma StaleTick()
    ensures StaleStepOk(2)
  {
  }

  lemma StaleSourceSteps()
    ensures StartSource(StaleDb(4), 7) == StaleDb(5)
    ensures FinishSource(StaleDb(5), 7, SourceFailed, ZERO, "") == StaleDb(6)
  {
    hide ROW, BY_A, BY_B, FAILED, BY_C;
  }

  lemma StaleStart()
    ensures StaleStepOk(4)
  {
    hide StaleDb, StartSource, ROW;
    StaleSourceSteps();
  }

  lemma StaleSave()
    ensures StaleStepOk(5)
  {
    hide StaleDb, FinishSource, ROW;
    StaleSourceSteps();
  }

  lemma OneFailedSource(m: map<SourceId, SourceRow>, i: SourceId)
    requires m.Keys == {i} && m[i].status == SourceFailed && m[i].totals == ZERO
    ensures AggregatedRow(BY_B, m, 6) == FAILED
  {
    hide Sum, FailedIn, DeliveredIn, FinishedRow;
    OneSum(m, i);
    OneFailed(m, i);
  }

  lemma StaleFinishedDb()
    ensures JobSources(StaleDb(6), 1) != map[] && FinishJob(StaleDb(6), 1, 6) == StaleDb(7)
  {
    hide AggregatedRow, BY_B, FAILED;
    var m := JobSources(StaleDb(6), 1);
    assert m == map[7 := StaleDb(6).sources[7]];
    OneFailedSource(m, 7);
  }

  lemma StaleLeaseGone()
    ensures StaleLeases(6) - {("a", 1)} == StaleLeases(7)
  {
  }

  lemma StaleFinishStep()
    ensures StaleStepOk(6)
  {
    hide StaleDb, StaleLeases, FinishJob, JobSources;
    StaleFinishedDb();
    StaleLeaseGone();
  }

  lemma StaleRequeuedDb()
    ensures RequeueFailed(StaleDb(7), 1) == StaleDb(8)
  {
    assert RequeuedSources(StaleDb(7).sources, 1) == StaleDb(8).sources;
  }

  lemma StaleRequeue()
    ensures StaleStepOk(7)
  {
    hide StaleDb, RequeueFailed, ROW;
    StaleRequeuedDb();
  }

  lemma StaleEnds()
    ensures Init(StaleState(0)) && Holds(StaleState(9), "b", 1) && Holds(StaleState(9), "c", 1)
  {
  }

  lemma EachStaleStep(n: nat)
    requires n < 9
    ensures StaleStepOk(n)
  {
    hide StaleStepOk;
    if n < 3 {
      if n == 0 {
        StaleCreate();
      } else if n == 1 {
        StaleFirstClaim();
      } else {
        StaleTick();
      }
    } else if n < 6 {
      if n == 3 {
        StaleTakeover();
      } else if n == 4 {
        StaleStart();
      } else {
        StaleSave();
      }
    } else if n == 6 {
      StaleFinishStep();
    } else if n == 7 {
      StaleRequeue();
    } else {
      StaleLastClaim();
    }
  }

  /** One stale FinishJob and a requeue are enough for two owners with unexpired leases on one job. */
  lemma StaleFinishBreaksExclusivity() returns (b: seq<State>, acts: seq<Action>)
    ensures Behavior(b, acts)
    ensures forall n :: 0 <= n < |acts| && n != 6 ==> !StaleFinish(b[n], acts[n])
    ensures Holds(b[|b| - 1], "b", 1) && Holds(b[|b| - 1], "c", 1)
  {
    hide Enabled, Apply, StaleFinish, StaleState, StaleAction, Init, Holds;
    b := seq(10, n requires 0 <= n => StaleState(n));
    acts := seq(9, n requires 0 <= n => StaleAction(n));
    StaleEnds();
    forall n | 0 <= n < 9
      ensures StepAt(b, acts, n)
      ensures n != 6 ==> !StaleFinish(b[n], acts[n])
    {
      EachStaleStep(n);
    }
  }
}
