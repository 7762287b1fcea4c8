/** What holds in every state, and between any two states, of a run of the release
    pipeline in which no review outlives its lease. */
module HubRuns {
  import opened Options
  import opened SemVer
  import opened HubDatabase
  import opened HubInvariant
  import opened HubReviews
  import opened HubProtocol
  import opened HubSafety
  import opened HubSteps

  lemma {:induction false} RunSnoc(sha: Blob -> string, events: seq<Event>, e: Event)
    ensures Run(sha, events + [e]) == Apply(sha, Run(sha, events), e)
  {
    assert (events + [e])[..|events|] == events;
  }

  lemma {:induction false} ReachableIsSound(sha: Blob -> string, events: seq<Event>)
    requires RunWithinLease(sha, events)
    ensures StateOk(sha, Run(sha, events))
  {
    if events != [] {
      var n := |events| - 1;
      var before := events[..n];
      assert forall k | 0 <= k <= n :: before[..k] == events[..k];
      ReachableIsSound(sha, before);
      assert events[..n][..n] == before;
      ApplyKeeps(sha, Run(sha, before), events[n]);
    }
  }

  /** Every current release id names a published release of that extension, and an
      extension is published or suspended exactly when it has a current release. */
  lemma {:induction false} CurrentReleaseIsPublished(sha: Blob -> string, events: seq<Event>, e: ExtensionId)
    requires RunWithinLease(sha, events)
    requires e in Run(sha, events).db.listings
    ensures var db := Run(sha, events).db;
            var row := db.listings[e];
            && (row.status == ListingPublished || row.status == ListingSuspended <==> row.current.Some?)
            && (row.current.Some? ==>
                  && row.current.value in db.releases
                  && db.releases[row.current.value].extension == e
                  && db.releases[row.current.value].status == Published)
  {
    ReachableIsSound(sha, events);
    assert ListingOk(Run(sha, events).db, e);
  }

  /** Release and submission move in lock-step.  'rejected' and 'withdrawn' never occur:
      a rejection cannot commit and a pending submission is never overtaken. */
  lemma {:induction false} ReleaseAndSubmissionInStep(sha: Blob -> string, events: seq<Event>, s: SubmissionId)
    requires RunWithinLease(sha, events)
    requires s in Run(sha, events).db.submissions
    ensures var db := Run(sha, events).db;
            var row := db.submissions[s];
            && row.release in db.releases
            && var release := db.releases[row.release];
               && (row.status == SubPending <==> release.status == Pending)
               && (row.status == SubReviewing <==> release.status == Reviewing)
               && (row.status == SubApproved <==> release.status == Published || release.status == Yanked)
               && (row.status == SubChanges <==> release.status == Changes || release.status == Draft)
               && release.status != Rejected && row.status != SubRejected && row.status != SubWithdrawn && row.status != RejectText
  {
    ReachableIsSound(sha, events);
    assert SubmissionOk(Run(sha, events).db, s);
  }

  /** A release in review or published has exactly one submission. */
  lemma {:induction false} ReleaseHasOneSubmission(sha: Blob -> string, events: seq<Event>, r: ReleaseId)
    returns (s: SubmissionId)
    requires RunWithinLease(sha, events)
    requires r in Run(sha, events).db.releases
    requires var status := Run(sha, events).db.releases[r].status; status != Draft && status != Changes
    ensures SubmissionFor(Run(sha, events).db, s, r)
    ensures forall t :: SubmissionFor(Run(sha, events).db, t, r) ==> t == s
  {
    ReachableIsSound(sha, events);
    var db := Run(sha, events).db;
    assert ReleaseOk(db, r);
    s :| SubmissionFor(db, s, r);
  }

  /** At most one in-flight request holds a claim on a submission, and its rows are
      still the ones it claimed. */
  lemma {:induction false} OneClaimPerSubmission(sha: Blob -> string, events: seq<Event>, a: RequestId, b: RequestId)
    requires RunWithinLease(sha, events)
    requires var s := Run(sha, events);
             && a in s.requests && b in s.requests && s.requests[a].Holds() && s.requests[b].Holds()
             && s.requests[a].snap.submission == s.requests[b].snap.submission
    ensures a == b
    ensures var s := Run(sha, events);
            && SubmissionIs(s.db, s.requests[a].snap.submission, SubReviewing)
            && s.db.submissions[s.requests[a].snap.submission].resolvedAt == Some(s.requests[a].claimedAt)
            && ReleaseIs(s.db, s.requests[a].snap.release, Reviewing)
  {
    ReachableIsSound(sha, events);
    var s := Run(sha, events);
    assert SameClaim(s.requests, a, b);
    assert RequestOk(sha, s.db, s.store, a, s.requests[a]);
    OnlySubmission(s.db, s.requests[a].snap.submission, s.requests[a].snap.release);
  }

  // ---- Between two states of a run ----

  lemma {:induction false} RunEvolves(sha: Blob -> string, events: seq<Event>, n: nat)
    requires RunWithinLease(sha, events) && n <= |events|
    ensures Evolves(Run(sha, events[..n]).db, Run(sha, events).db)
    decreases |events|
  {
    var m := |events|;
    assert events[..m] == events;
    ReachableIsSound(sha, events);
    if n == m {
      HubInvariant.NothingChanges(Run(sha, events).db, None);
    } else {
      var before := events[..m - 1];
      assert forall k | 0 <= k <= m - 1 :: before[..k] == events[..k];
      RunEvolves(sha, before, n);
      ReachableIsSound(sha, before);
      assert WithinLease(Run(sha, before)) by { assert before == events[..m - 1]; }
      ApplyKeeps(sha, Run(sha, before), events[m - 1]);
      EvolvesTransitive(Run(sha, events[..n]).db, Run(sha, before).db, Run(sha, events).db);
    }
  }

  lemma {:induction false} PrefixWithinLease(sha: Blob -> string, events: seq<Event>, n: nat)
    requires RunWithinLease(sha, events) && n <= |events|
    ensures RunWithinLease(sha, events[..n])
  {
    assert forall k | 0 <= k <= n :: events[..n][..k] == events[..k];
  }

  lemma {:induction false} StatesEvolve(sha: Blob -> string, events: seq<Event>, i: nat, j: nat)
    requires RunWithinLease(sha, events) && i <= j <= |events|
    ensures Evolves(Run(sha, events[..i]).db, Run(sha, events[..j]).db)
    ensures TablesOk(Run(sha, events[..i]).db) && TablesOk(Run(sha, events[..j]).db)
  {
    PrefixWithinLease(sha, events, i);
    PrefixWithinLease(sha, events, j);
    assert events[..j][..i] == events[..i];
    RunEvolves(sha, events[..j], i);
    ReachableIsSound(sha, events[..i]);
    ReachableIsSound(sha, events[..j]);
  }

  function CurrentAt(s: State, e: ExtensionId): Option<ReleaseId> {
    CurrentOf(s.db, e)
  }

  /** Once there is a current release there always is one, and a later one has a
      strictly higher version. */
  lemma {:induction false} CurrentVersionOnlyRises(sha: Blob -> string, events: seq<Event>, e: ExtensionId, i: nat,
                                                   j: nat)
    requires RunWithinLease(sha, events) && i <= j <= |events|
    requires CurrentAt(Run(sha, events[..i]), e).Some?
    ensures var c, d := CurrentAt(Run(sha, events[..i]), e), CurrentAt(Run(sha, events[..j]), e);
            var releases := Run(sha, events[..j]).db.releases;
            && d.Some? && c.value in releases && d.value in releases
            && (d == c || HasPrecedence(releases[d.value].version, releases[c.value].version))
  {
    StatesEvolve(sha, events, i, j);
    var a, b := Run(sha, events[..i]).db, Run(sha, events[..j]).db;
    assert ListingOk(a, e) && ListingEvolves(a, b, e);
    assert ReleaseEvolves(a, b, CurrentOf(a, e).value);
    GtIff(b.releases[CurrentOf(b, e).value].version, b.releases[CurrentOf(a, e).value].version);
  }

  /** The current release id never returns to an earlier release: if it is the same at two moments
      it did not move in between, so a `current_release_id IS` guard that holds means
      nothing was published since the read. */
  lemma {:induction false} CurrentReleaseNeverReturns(sha: Blob -> string, events: seq<Event>, e: ExtensionId,
                                                      i: nat, k: nat, j: nat)
    requires RunWithinLease(sha, events) && i <= k <= j <= |events|
    requires CurrentAt(Run(sha, events[..i]), e) == CurrentAt(Run(sha, events[..j]), e)
    ensures CurrentAt(Run(sha, events[..k]), e) == CurrentAt(Run(sha, events[..i]), e)
  {
    var x, y, z := CurrentAt(Run(sha, events[..i]), e), CurrentAt(Run(sha, events[..k]), e), CurrentAt(Run(sha, events[..j]), e);
    if y.Some? {
      CurrentVersionOnlyRises(sha, events, e, k, j);
    }
    if x.Some? {
      CurrentVersionOnlyRises(sha, events, e, i, k);
      StatesEvolve(sha, events, k, j);
      var b, c := Run(sha, events[..k]).db, Run(sha, events[..j]).db;
      assert ReleaseEvolves(b, c, x.value) && ReleaseEvolves(b, c, y.value);
      GtIff(c.releases[x.value].version, c.releases[y.value].version);
      GtIff(c.releases[y.value].version, c.releases[x.value].version);
      GtIsTotal(c.releases[x.value].version, c.releases[y.value].version);
    }
  }

  /** Once published, a release's extension, version, package key, hash and descriptor
      never change, and it stays published or yanked. */
  lemma {:induction false} PublishedContentIsFrozen(sha: Blob -> string, events: seq<Event>, r: ReleaseId, i: nat,
                                                    j: nat)
    requires RunWithinLease(sha, events) && i <= j <= |events|
    requires var db := Run(sha, events[..i]).db; r in db.releases && Final(db.releases[r].status)
    ensures var a, b := Run(sha, events[..i]).db, Run(sha, events[..j]).db;
            && r in b.releases && Final(b.releases[r].status)
            && b.releases[r].extension == a.releases[r].extension && b.releases[r].version == a.releases[r].version
            && b.releases[r].artifact == a.releases[r].artifact
            && (a.releases[r].status == Yanked ==> b.releases[r].status == Yanked)
  {
    StatesEvolve(sha, events, i, j);
    assert ReleaseEvolves(Run(sha, events[..i]).db, Run(sha, events[..j]).db, r);
  }
}
