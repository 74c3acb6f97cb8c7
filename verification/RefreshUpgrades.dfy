/** A whole forced request: it first inserts a forced job, which is ignored if
    the repository has an active one, and then upgrades the active job. Anything
    can happen between the two statements. */
module RefreshUpgrades {
  import opened Wrappers
  import opened RefreshTables
  import opened RefreshRuns
  import opened RefreshSafety
  import opened RefreshHistory
  import opened RefreshRequests

  /** The two statements of one request, at `i` and at `k`. */
  ghost predicate IsRequest(es: seq<Event>, i: nat, k: nat, repository: string) {
    i < k < |es| && es[i].Enqueue? && es[i].forced && es[i].repository == repository && es[k] == Force(repository)
  }

  predicate Serves(w: World, j: nat, repository: string) {
    j < |w.slots| && Active(w.slots[j].entry.job) && w.slots[j].entry.job.repository == repository
  }

  /** The job that takes the request up: the one it inserted, or else the one
      that is active when it upgrades. There may be none. */
  ghost predicate TakesUp(ws: seq<World>, i: nat, k: nat, repository: string, j: nat)
    requires i < |ws| && k < |ws|
  {
    if HasActive(ws[i].slots, repository) then Serves(ws[k], j, repository) else j == |ws[i].slots|
  }

  /** The worker completed the job in a claim that was not forced. */
  ghost predicate EndedUnforced(ws: seq<World>, es: seq<Event>, n: nat, j: nat)
    requires n <= |es| < |ws|
  {
    exists f :: 0 <= f < n && es[f] == Act(j, Finish) && !Past(ws, es, f, j, 0).requests.claimedForced
  }

  /** No job took the request up, or the one that did has run without it. */
  ghost predicate Lost(ws: seq<World>, es: seq<Event>, i: nat, k: nat, n: nat, repository: string)
    requires IsRequest(es, i, k, repository) && n <= |es| < |ws|
  {
    forall j: nat :: TakesUp(ws, i, k, repository, j) ==> EndedUnforced(ws, es, n, j)
  }

  /** The job was claimed without the flag before the upgrade, and completes
      without being claimed again. */
  ghost predicate EndsInItsClaim(ws: seq<World>, es: seq<Event>, k: nat, n: nat, j: nat)
    requires k < n <= |es| < |ws|
  {
    && !Past(ws, es, k, j, 0).requests.claimedForced
    && exists f :: k < f < n && es[f] == Act(j, Finish) && forall c :: k < c < f ==> !Claims(es[c], j)
  }

  // ----- The flag of the last claim -----

  lemma NotedClaim(s: Slot, e: Event, j: nat, h: History)
    ensures var g := Note(h, s, e, j, 0);
            && (Claims(e, j) ==> g.claims > 0 && g.requests.claimedForced == s.entry.job.forced)
            && (!Claims(e, j) ==> g.claims == h.claims && g.requests.claimedForced == h.requests.claimedForced)
  {
  }

  /** The past of a job that exists, one event later. */
  lemma PastClaim(ws: seq<World>, es: seq<Event>, n: nat, j: nat)
    requires IsRun(ws, es) && n < |es| && j < |ws[n].slots|
    ensures j < |ws[n + 1].slots|
    ensures var h, g := Past(ws, es, n, j, 0), Past(ws, es, n + 1, j, 0);
            && (Claims(es[n], j) ==> g.claims > 0 && g.requests.claimedForced == ws[n].slots[j].entry.job.forced)
            && (!Claims(es[n], j) ==> g.claims == h.claims && g.requests.claimedForced == h.requests.claimedForced)
  {
    hide Next, Note, Claims;
    EventMovesSlots(ws[n], es[n], ws[n + 1], j);
    NotedClaim(ws[n].slots[j], es[n], j, Past(ws, es, n, j, 0));
  }

  /** A job that carries the flag keeps it, and is claimed with it from then on. */
  lemma {:induction false} FlaggedClaims(ws: seq<World>, es: seq<Event>, m: nat, n: nat, j: nat)
    requires IsRun(ws, es) && m <= n <= |es| && j < |ws[m].slots| && ws[m].slots[j].entry.job.forced
    requires Past(ws, es, m, j, 0).claims == 0 || Past(ws, es, m, j, 0).requests.claimedForced
    ensures j < |ws[n].slots| && ws[n].slots[j].entry.job.forced
    ensures Past(ws, es, n, j, 0).claims == 0 || Past(ws, es, n, j, 0).requests.claimedForced
  {
    hide Next, Past, Claims;
    ForcedForGood(ws, es, m, n, j);
    if m < n {
      FlaggedClaims(ws, es, m, n - 1, j);
      PastClaim(ws, es, n - 1, j);
    }
  }

  /** Without another claim the flag of the last one stands. */
  lemma {:induction false} SameClaim(ws: seq<World>, es: seq<Event>, m: nat, n: nat, j: nat)
    requires IsRun(ws, es) && m <= n <= |es| && j < |ws[m].slots| && forall c :: m <= c < n ==> !Claims(es[c], j)
    ensures j < |ws[n].slots|
    ensures Past(ws, es, n, j, 0).requests.claimedForced == Past(ws, es, m, j, 0).requests.claimedForced
  {
    hide Next, Past, Claims;
    if m < n {
      SameClaim(ws, es, m, n - 1, j);
      PastClaim(ws, es, n - 1, j);
    }
  }

  /** A worker that finishes has claimed the job. */
  lemma FinishedWasClaimed(ws: seq<World>, es: seq<Event>, f: nat, j: nat)
    requires IsRun(ws, es) && f < |es| && es[f] == Act(j, Finish)
    ensures j < |ws[f].slots| && j < |ws[f + 1].slots| && ws[f + 1].slots[j].entry.job.status == Completed
    ensures Past(ws, es, f, j, 0).claims > 0
  {
    assert Next(ws[f], es[f]) == Some(ws[f + 1]);
    hide Remembers, Past;
    RunsRemember(ws, es, f, j, 0);
    RequestsOf(ws[f].slots[j], Past(ws, es, f, j, 0), ws[f].now);
  }

  // ----- The job that takes the request up -----

  lemma InsertedIsForced(w: World, e: Event, v: World)
    requires Next(w, e) == Some(v) && e.Enqueue? && e.forced && !HasActive(w.slots, e.repository)
    ensures |v.slots| == |w.slots| + 1 && v.slots[|w.slots|].entry.job.forced
  {
  }

  /** An inserted forced job never ends unforced. */
  lemma InsertedIsServed(ws: seq<World>, es: seq<Event>, i: nat, n: nat)
    requires IsRun(ws, es) && i < |es| && n <= |es| && es[i].Enqueue? && es[i].forced
    requires !HasActive(ws[i].slots, es[i].repository)
    ensures !EndedUnforced(ws, es, n, |ws[i].slots|)
  {
    hide Past, HasActive;
    var j := |ws[i].slots|;
    assert Next(ws[i], es[i]) == Some(ws[i + 1]);
    hide Next;
    InsertedIsForced(ws[i], es[i], ws[i + 1]);
    NeverClaimed(ws, es, i + 1, j);
    forall f | 0 <= f < n && es[f] == Act(j, Finish)
      ensures Past(ws, es, f, j, 0).requests.claimedForced
    {
      FinishedWasClaimed(ws, es, f, j);
      if f <= i {
        SlotsGrow(ws, es, f, i, j);
      }
      FlaggedClaims(ws, es, i + 1, f, j);
    }
  }

  lemma {:induction false} SlotsGrow(ws: seq<World>, es: seq<Event>, m: nat, n: nat, j: nat)
    requires IsRun(ws, es) && m <= n <= |es| && j < |ws[m].slots|
    ensures j < |ws[n].slots|
  {
    hide Next;
    if m < n {
      SlotsGrow(ws, es, m, n - 1, j);
      EventMovesSlots(ws[n - 1], es[n - 1], ws[n], j);
    }
  }

  /** A job that has just been created has no past. */
  lemma NeverClaimed(ws: seq<World>, es: seq<Event>, n: nat, j: nat)
    requires IsRun(ws, es) && 0 < n <= |es| && |ws[n - 1].slots| <= j
    ensures Past(ws, es, n, j, 0).claims == 0
  {
    hide Next;
    NoPastBeforeCreation(ws, es, n - 1, j, 0);
  }

  lemma ForcedNow(w: World, e: Event, v: World, j: nat, repository: string)
    requires e == Force(repository) && Next(w, e) == Some(v) && Serves(w, j, repository)
    ensures j < |v.slots| && v.slots[j].entry.job.forced && !Claims(e, j)
  {
  }

  lemma ServesAlone(w: World, j: nat, k: nat, repository: string)
    requires Inv(w) && Serves(w, j, repository) && Serves(w, k, repository)
    ensures j == k
  {
    hide SlotOk, RowsOwn, InTime;
  }

  lemma ServesIff(w: World, repository: string)
    ensures HasActive(w.slots, repository) <==> exists j: nat :: Serves(w, j, repository)
  {
    if HasActive(w.slots, repository) {
      var k: nat :| k < |w.slots| && Active(w.slots[k].entry.job) && w.slots[k].entry.job.repository == repository;
      assert Serves(w, k, repository);
    }
  }

  /** A job that is upgraded at `k` ends unforced exactly in the claim it was in. */
  lemma UpgradedIsServedIff(ws: seq<World>, es: seq<Event>, k: nat, n: nat, j: nat, repository: string)
    requires IsRun(ws, es) && k < n <= |es| && es[k] == Force(repository) && Serves(ws[k], j, repository)
    ensures EndedUnforced(ws, es, n, j) <==> EndsInItsClaim(ws, es, k, n, j)
  {
    hide Past, Claims;
    assert Next(ws[k], es[k]) == Some(ws[k + 1]);
    hide Next;
    ForcedNow(ws[k], es[k], ws[k + 1], j, repository);
    assert ws[k].slots[j].entry.job.status != Completed;
    forall f | 0 <= f < n && es[f] == Act(j, Finish)
      ensures k < f
      ensures !Past(ws, es, f, j, 0).requests.claimedForced <==>
                !Past(ws, es, k, j, 0).requests.claimedForced && forall c :: k < c < f ==> !Claims(es[c], j)
    {
      FinishedAfter(ws, es, k, f, j);
      if c :| k < c < f && Claims(es[c], j) {
        ForcedForGood(ws, es, k + 1, c, j);
        PastClaim(ws, es, c, j);
        ForcedForGood(ws, es, k + 1, c + 1, j);
        FlaggedClaims(ws, es, c + 1, f, j);
        FinishedWasClaimed(ws, es, f, j);
      } else {
        SameClaim(ws, es, k, f, j);
      }
    }
  }

  lemma FinishedAfter(ws: seq<World>, es: seq<Event>, k: nat, f: nat, j: nat)
    requires IsRun(ws, es) && k < |es| && f < |es| && es[f] == Act(j, Finish) && es[k].Force?
    requires j < |ws[k].slots| && ws[k].slots[j].entry.job.status != Completed
    ensures k < f
  {
    hide Next;
    FinishedWasClaimed(ws, es, f, j);
    if f < k {
      CompletedForGood(ws, es, f + 1, k, j);
    }
  }

  // ----- Whole requests -----

  /** A forced request is lost exactly if its insertion was ignored, and either
      no job of the repository is active any more when it upgrades, or the one
      that is completes in the claim it is in, which was not forced. A job that
      a reload withdraws is not counted as completed. */
  lemma {:induction false} ForcedRequestIsLostIff(ws: seq<World>, es: seq<Event>, i: nat, k: nat, n: nat,
                                                  repository: string)
    requires IsRun(ws, es) && IsRequest(es, i, k, repository) && k < n <= |es|
    ensures Lost(ws, es, i, k, n, repository) <==>
              && HasActive(ws[i].slots, repository)
              && (|| !HasActive(ws[k].slots, repository)
                  || exists j: nat :: Serves(ws[k], j, repository) && EndsInItsClaim(ws, es, k, n, j))
  {
    hide Next, Inv, HasActive, Serves, EndedUnforced, EndsInItsClaim, Past;
    ServesIff(ws[k], repository);
    if HasActive(ws[i].slots, repository) {
      RunsAreSafe(ws, es, k);
      forall j: nat | Serves(ws[k], j, repository)
        ensures EndedUnforced(ws, es, n, j) <==> EndsInItsClaim(ws, es, k, n, j)
        ensures forall l: nat :: Serves(ws[k], l, repository) ==> l == j
      {
        UpgradedIsServedIff(ws, es, k, n, j, repository);
        forall l: nat | Serves(ws[k], l, repository) ensures l == j {
          ServesAlone(ws[k], j, l, repository);
        }
      }
    } else {
      InsertedIsServed(ws, es, i, n);
      assert TakesUp(ws, i, k, repository, |ws[i].slots|);
    }
  }

  /** A job that completes between the two statements swallows the request: the
      insertion is ignored, and the upgrade then finds no job. */
  lemma {:induction false} ForceInTheGapIsLost(w: World, j: nat, at: int)
    requires Inv(w) && j < |w.slots| && At(w.slots[j], Finishing)
    ensures var repository := w.slots[j].entry.job.repository;
            var finished := Next(w, Act(j, Finish));
            && Next(w, Enqueue(repository, at, true)) == Some(w)
            && finished.Some? && Next(finished.value, Force(repository)) == finished
            && !HasActive(finished.value.slots, repository)
  {
    hide StageOk, WellFormed, RowsOwn, InTime;
    assert SlotOk(w.slots[j]);
    var repository := w.slots[j].entry.job.repository;
    assert Active(w.slots[j].entry.job);
    assert ShakenSlots(w.slots, Enqueue(repository, at, true)) == w.slots;
    var v := Next(w, Act(j, Finish)).value;
    assert !HasActive(v.slots, repository);
    assert ShakenSlots(v.slots, Force(repository)) == v.slots;
  }
}
