/** Runs in which the eraser never gets to a conversation's audio: behind undeletable conversations
    of its own or of another tenant, behind a busy tenant, and after a sweep whose delete failed. */
module ErasureFailures {
  import opened Lifecycle
  import opened Gate
  import opened Erasure
  import opened ErasureQueue
  import opened ErasureRounds

  /* ----- reachable runs in which a conversation starves ----- */

  /** `n` uploads of a tenant, all with the same deadline. */
  function Uploads(n: nat, tenant: string, deadline: int): (r: seq<Step>)
    ensures |r| == n && forall i :: 0 <= i < n ==> r[i] == Ingest(tenant, "", deadline, true)
  {
    seq(n, i requires 0 <= i < n => Ingest(tenant, "", deadline, true))
  }

  /** The uploads are conversations of that tenant and deadline, unerased, with audio. */
  lemma {:induction false} UploadsRun(s: State, n: nat, tenant: string, deadline: int)
    ensures Legal(s, Uploads(n, tenant, deadline)) && NoErasing(Uploads(n, tenant, deadline))
    ensures var s' := Run(s, Uploads(n, tenant, deadline));
            && |s'.convs| == |s.convs| + n && s.files <= s'.files && (tenant in s.files ==> s'.files == s.files)
            && s.convs <= s'.convs && s.audio <= s'.audio
            && (n > 0 ==> s'.files == Opening(s.files, tenant))
            && (forall d :: |s.convs| <= d < |s'.convs| ==>
                  && Unerased(s', d) && s'.convs[d].eraseAfter == deadline && s'.convs[d].tenant == tenant
                  && d in s'.audio)
    decreases n
  {
    if n > 0 {
      var s1 := Do(s, Ingest(tenant, "", deadline, true));
      UploadsRun(s1, n - 1, tenant, deadline);
      assert Uploads(n, tenant, deadline)[1..] == Uploads(n - 1, tenant, deadline);
    }
  }

  /** The `n` ids from `from` on. */
  function Ids(from: nat, n: nat): (r: set<nat>)
    ensures |r| == n && forall i: nat :: i in r <==> from <= i < from + n
  {
    if n == 0 then {} else Ids(from, n - 1) + {from + n - 1}
  }

  lemma StandInFront(s: State, c: nat, t: int, from: nat, n: nat)
    requires c < |s.convs| && from + n <= |s.convs|
    requires forall d: nat :: from <= d < from + n ==>
               Unerased(s, d) && s.convs[d].eraseAfter <= t && Precedes(s, d, c)
    ensures Queue(s, c, t) * Ids(from, n) == Ids(from, n) && |Queue(s, c, t)| >= n
  {
    assert Ids(from, n) <= Queue(s, c, t);
    assert Queue(s, c, t) == Ids(from, n) + (Queue(s, c, t) - Ids(from, n));
  }

  /** Uploads of a tenant go in front of every conversation whose file was opened after its own. */
  lemma UploadsPrecede(s: State, n: nat, tenant: string, deadline: int, c: nat)
    requires c < |s.convs| && HasFile(s, c) && Place(s.files, tenant) < FileOf(s, c)
    ensures Legal(s, Uploads(n, tenant, deadline))
    ensures var s' := Run(s, Uploads(n, tenant, deadline));
            && c < |s'.convs| && s'.convs[c] == s.convs[c] && s'.files == s.files && s.audio <= s'.audio
            && |s'.convs| == |s.convs| + n && s.convs <= s'.convs
            && (forall d :: |s.convs| <= d < |s'.convs| ==> s'.convs[d].eraseAfter == deadline)
            && Queue(s', c, deadline) * Ids(|s.convs|, n) == Ids(|s.convs|, n) && |Queue(s', c, deadline)| >= n
  {
    UploadsRun(s, n, tenant, deadline);
    PlaceFinds(s.files, tenant);
    StandInFront(Run(s, Uploads(n, tenant, deadline)), c, deadline, |s.convs|, n);
  }

  /** `limit + 1` uploads of one tenant, due at once. */
  function OneTenant(limit: nat): seq<Step> {
    Uploads(limit + 1, "", 0)
  }

  lemma OneTenantStarves(threshold: real, limit: nat)
    ensures Legal(Start(threshold), OneTenant(limit))
    ensures var s := Run(Start(threshold), OneTenant(limit));
            Starved(s, 0, limit, Ids(0, limit), limit) && Erasable(s, limit, 0) && limit in s.audio
  {
    UploadsRun(Start(threshold), limit + 1, "", 0);
    LastOfMany(Run(Start(threshold), OneTenant(limit)), limit);
  }

  lemma LastOfMany(s: State, limit: nat)
    requires |s.convs| == limit + 1 && s.files == Opening([], "")
    requires forall d: nat :: d <= limit ==>
               Unerased(s, d) && s.convs[d].eraseAfter == 0 && s.convs[d].tenant == "" && d in s.audio
    ensures Starved(s, 0, limit, Ids(0, limit), limit)
  {
    StandInFront(s, limit, 0, 0, limit);
  }

  /** After `limit + 1` uploads of which the first `limit` cannot be deleted, the last one, due
      and deletable, keeps its audio whatever passes and handlers follow. */
  lemma AConversationStarves(threshold: real, limit: nat, rounds: seq<Round>)
    requires Legal(Start(threshold), OneTenant(limit))
    requires Playable(Run(Start(threshold), OneTenant(limit)), limit, Ids(0, limit), rounds) && Quiet(0, rounds)
    ensures var s := Run(Start(threshold), OneTenant(limit));
            var s' := AfterRounds(s, limit, Ids(0, limit), rounds);
            && limit !in Ids(0, limit) && Erasable(s, limit, 0) && limit in s.audio
            && Unerased(s', limit) && limit in s'.audio
  {
    OneTenantStarves(threshold, limit);
    ManyStuckMeansStarved(Run(Start(threshold), OneTenant(limit)), 0, limit, Ids(0, limit), rounds, limit);
  }

  /** One tenant's file is opened, another tenant uploads, and then the first has `limit`
      uploads, all due later. */
  function TwoTenants(limit: nat): seq<Step> {
    FirstUpload() + Uploads(limit, "a", 1)
  }

  function FirstUpload(): seq<Step> {
    [Provision("a"), Ingest("b", "", 0, true)]
  }

  lemma FirstUploadRuns(threshold: real)
    ensures Legal(Start(threshold), FirstUpload())
    ensures var s := Run(Start(threshold), FirstUpload());
            && |s.convs| == 1 && Unerased(s, 0) && s.convs[0].eraseAfter == 0 && s.audio == {0}
            && HasFile(s, 0) && Place(s.files, "a") < FileOf(s, 0)
  {
    var s0 := Do(Start(threshold), FirstUpload()[0]);
    var s := Do(s0, FirstUpload()[1]);
    assert FirstUpload()[1..] == [FirstUpload()[1]] && [FirstUpload()[1]][1..] == [];
    assert Run(Start(threshold), FirstUpload()) == s;
    assert s.files == ["a", "b"] && "a"[0] != "b"[0];
    PlaceFinds(s.files, "a");
    PlaceFinds(s.files, "b");
  }

  lemma TwoTenantsStarve(threshold: real, limit: nat)
    ensures Legal(Start(threshold), TwoTenants(limit))
    ensures var s := Run(Start(threshold), TwoTenants(limit));
            && Starved(s, 1, limit, Ids(1, limit), 0) && Erasable(s, 0, 1) && 0 in s.audio
            && forall d :: 0 < d < |s.convs| ==> s.convs[d].eraseAfter > s.convs[0].eraseAfter
  {
    FirstUploadRuns(threshold);
    var s1 := Run(Start(threshold), FirstUpload());
    UploadsPrecede(s1, limit, "a", 1, 0);
    RunSplits(Start(threshold), FirstUpload(), Uploads(limit, "a", 1));
  }

  /** A conversation with the earliest deadline of all starves behind undeletable ones of a tenant
      whose file was opened before. */
  lemma AnotherTenantsConversationStarves(threshold: real, limit: nat, rounds: seq<Round>)
    requires Legal(Start(threshold), TwoTenants(limit))
    requires Playable(Run(Start(threshold), TwoTenants(limit)), limit, Ids(1, limit), rounds) && Quiet(1, rounds)
    ensures var s := Run(Start(threshold), TwoTenants(limit));
            var s' := AfterRounds(s, limit, Ids(1, limit), rounds);
            && 0 !in Ids(1, limit) && Erasable(s, 0, 1) && 0 in s.audio
            && (forall d :: 0 < d < |s.convs| ==> s.convs[d].eraseAfter > s.convs[0].eraseAfter)
            && Unerased(s', 0) && 0 in s'.audio
  {
    TwoTenantsStarve(threshold, limit);
    ManyStuckMeansStarved(Run(Start(threshold), TwoTenants(limit)), 1, limit, Ids(1, limit), rounds, 0);
  }

  /* ----- a busy tenant ----- */

  /** Before every pass the tenant has a full batch of uploads fall due. */
  predicate Busy(tenant: string, limit: nat, since: int, rounds: seq<Round>) {
    forall k :: 0 <= k < |rounds| ==>
      since <= rounds[k].at && rounds[k].others == Uploads(limit, tenant, rounds[k].at)
  }

  /** Due, and in a file opened after the tenant's. */
  predicate WaitsFor(s: State, tenant: string, since: int, c: nat) {
    && Unerased(s, c) && HasFile(s, c) && s.convs[c].eraseAfter <= since && c in s.audio
    && Place(s.files, tenant) < FileOf(s, c)
  }

  lemma BusyRound(s: State, tenant: string, limit: nat, since: int, round: Round, c: nat)
    requires WaitsFor(s, tenant, since, c) && since <= round.at && round.others == Uploads(limit, tenant, round.at)
    ensures Fits(s, round) && WaitsFor(AfterRound(s, limit, {}, round), tenant, since, c)
  {
    UploadsPrecede(s, limit, tenant, round.at, c);
    PassSparesTheWaiting(Run(s, round.others), tenant, limit, since, round.at, c);
  }

  lemma PassSparesTheWaiting(s: State, tenant: string, limit: nat, since: int, now: int, c: nat)
    requires WaitsFor(s, tenant, since, c) && since <= now && |Queue(s, c, now)| >= limit
    ensures Legal(s, ErasePass(s, now, limit, Deletable({})))
    ensures WaitsFor(Run(s, ErasePass(s, now, limit, Deletable({}))), tenant, since, c)
  {
    PassSparesTheBack(s, now, limit, {}, c, now);
    PassKeepsFiles(s, now, limit);
  }

  lemma PassKeepsFiles(s: State, now: int, limit: nat)
    ensures Legal(s, ErasePass(s, now, limit, Deletable({})))
    ensures Run(s, ErasePass(s, now, limit, Deletable({}))).files == s.files
  {
    BatchIsErasable(s, now, limit);
    ErasuresRun(s, ErasureBatch(s, now, limit), now, Deletable({}));
  }

  /** A tenant that has a batch of uploads fall due before every pass keeps the eraser from the
      conversations of every tenant whose file was opened later, although each delete goes
      through. */
  lemma {:induction false} ABusyTenantCrowdsOut(s: State, tenant: string, limit: nat, since: int,
                                                rounds: seq<Round>, c: nat)
    requires WaitsFor(s, tenant, since, c) && Busy(tenant, limit, since, rounds)
    ensures Playable(s, limit, {}, rounds)
    ensures Unerased(AfterRounds(s, limit, {}, rounds), c) && c in AfterRounds(s, limit, {}, rounds).audio
    decreases |rounds|
  {
    if rounds != [] {
      BusyRound(s, tenant, limit, since, rounds[0], c);
      ABusyTenantCrowdsOut(AfterRound(s, limit, {}, rounds[0]), tenant, limit, since, rounds[1..], c);
    }
  }

  /* ----- a reachable run in which a sweep strands audio ----- */

  /** Audio left behind a closed conversation stays: no later step deletes it. */
  lemma {:induction false} StrandedForGood(s: State, steps: seq<Step>, c: nat)
    requires Legal(s, steps) && c < |s.convs| && Terminal(s.convs[c].stage) && c in s.audio
    ensures var s' := Run(s, steps);
            c < |s'.convs| && Terminal(s'.convs[c].stage) && c in s'.audio
    decreases |steps|
  {
    if steps != [] {
      StepClimbs(s, steps[0]);
      if steps[0].Open? && CanMove(s, steps[0].conversation, Dispatching) {
        InsertsKeepThreshold(Move(s, steps[0].conversation, Dispatching), steps[0].conversation,
                             Channels[..steps[0].writes], steps[0].at);
      }
      StrandedForGood(Do(s, steps[0]), steps[1..], c);
    }
  }

  /** One upload, then a sweep whose delete raises: the conversation is closed, and its audio
      is there after every further run. */
  lemma ASweepStrandsAudio(threshold: real, now: int, later: seq<Step>)
    requires Legal(Start(threshold), Uploads(1, "", 0) + [Sweep(0, now, false)] + later)
    ensures Legal(Start(threshold), Uploads(1, "", 0))
    ensures var s := Run(Start(threshold), Uploads(1, "", 0));
            && ErasedInv(s) && Enabled(s, Sweep(0, now, false)) && !ErasedInv(Do(s, Sweep(0, now, false)))
            && var s' := Run(Start(threshold), Uploads(1, "", 0) + [Sweep(0, now, false)] + later);
               0 < |s'.convs| && s'.convs[0].stage == ErrorPurged && 0 in s'.audio
  {
    var start := Start(threshold);
    UploadsRun(start, 1, "", 0);
    var s := Run(start, Uploads(1, "", 0));
    var swept := Do(s, Sweep(0, now, false));
    NoSweepsIsClean(start, Uploads(1, "", 0));
    TerminalMeansErased(start, Uploads(1, "", 0));
    SweepErasesIffDeleted(s, 0, now, false);
    RunSplits(start, Uploads(1, "", 0) + [Sweep(0, now, false)], later);
    RunSplits(start, Uploads(1, "", 0), [Sweep(0, now, false)]);
    assert [Sweep(0, now, false)][1..] == [];
    StrandedForGood(swept, later, 0);
    AtMostFiveChanges(swept, later, 0);
  }
}
