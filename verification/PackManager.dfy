/** The feed-to-store lifecycle: a dry-run planner and the synchroniser it has to predict. */
module PackManager {
  import opened Results
  import opened PackStore
  import opened FeedState

  datatype PlanStatus =
    | Conflict
    | InvalidLocalState
    | Unchanged
    | ActivationAvailable
    | InstallAvailable
    | ChangeAvailable

  datatype PlanItem = PlanItem(packId: string, version: string, active: Option<string>, status: PlanStatus,
                               download: bool)

  datatype SyncStatus = Failed | StillUnchanged | Installed | Updated

  datatype SyncItem = SyncItem(packId: string, version: string, previous: Option<string>, active: Option<string>,
                               status: SyncStatus)

  /** What the plan says about one advertised pack. */
  function StatusFor(f: PackFiles, e: FeedEntry): PlanStatus {
    if e.version in f.versions && f.versions[e.version] != e.sha256 then Conflict
    else if f.active == Some(e.version) then
      if e.version !in f.versions then InvalidLocalState else Unchanged
    else if e.version in f.versions then ActivationAvailable
    else if f.active.None? then InstallAvailable
    else ChangeAvailable
  }

  function PlanFor(f: PackFiles, e: FeedEntry): PlanItem {
    var status := StatusFor(f, e);
    PlanItem(e.packId, e.version, f.active, status, status == InstallAvailable || status == ChangeAvailable)
  }

  predicate AllSafe(feed: Feed) {
    forall e | e in feed.packs :: SafeId(e.packId)
  }

  /** `plan_verified_check_feed`: reads the store and changes nothing. */
  method PlanFeed(feed: Feed, store: CheckPackStore) returns (r: Result<seq<PlanItem>>)
    ensures r.Ok? <==> AllSafe(feed)
    ensures r.Ok? ==> |r.value| == |feed.packs|
    ensures r.Ok? ==>
      forall i | 0 <= i < |feed.packs| ::
          r.value[i] == PlanFor(FilesOf(store.packs, feed.packs[i].packId), feed.packs[i])
  {
    var plans: seq<PlanItem> := [];
    for i := 0 to |feed.packs|
      invariant |plans| == i
      invariant forall j | 0 <= j < i :: SafeId(feed.packs[j].packId)
      invariant forall j | 0 <= j < i :: plans[j] == PlanFor(FilesOf(store.packs, feed.packs[j].packId), feed.packs[j])
    {
      var e := feed.packs[i];
      assert e in feed.packs;
      if !SafeId(e.packId) {
        return Rejected;
      }
      var files := FilesOf(store.packs, e.packId);
      var active := files.active;
      if e.version in files.versions && files.versions[e.version] != e.sha256 {
        plans := plans + [PlanItem(e.packId, e.version, active, Conflict, false)];
      } else if active == Some(e.version) {
        if e.version !in files.versions {
          plans := plans + [PlanItem(e.packId, e.version, active, InvalidLocalState, false)];
        } else {
          plans := plans + [PlanItem(e.packId, e.version, active, Unchanged, false)];
        }
      } else if e.version in files.versions {
        plans := plans + [PlanItem(e.packId, e.version, active, ActivationAvailable, false)];
      } else {
        plans := plans
            + [PlanItem(e.packId, e.version, active, if active.None? then InstallAvailable else ChangeAvailable, true)];
      }
    }
    return Ok(plans);
  }

  // ---------------------------------------------------------------------------- the sync

  /** What a download of an entry's URL delivers, if anything. */
  type Network = FeedEntry -> Option<Artifact>

  /** `fetch_check_pack_artifact`: only the advertised bytes, by the advertised signer. */
  function Fetch(e: FeedEntry, trusted: set<string>, network: Network): Result<Artifact> {
    match network(e)
    case None => Rejected
    case Some(a) =>
      if e.signer in trusted && a == e.sha256 && a.signer == e.signer && Verifies(a, trusted)
         && a.packId == e.packId && a.version == e.version
      then Ok(a) else Rejected
  }

  function EntryFor(packs: seq<FeedEntry>, id: string): Option<FeedEntry> {
    if packs == [] then None else if packs[0].packId == id then Some(packs[0]) else EntryFor(packs[1..], id)
  }

  /** `install_pack_from_verified_feed` on one pack's files. */
  function InstallFromFeed(feed: Feed, id: string, trusted: set<string>, network: Network,
                           f: PackFiles): Result<PackFiles> {
    match EntryFor(feed.packs, id)
    case None => Rejected
    case Some(e) =>
      var a :- Fetch(e, trusted, network);
      if SafeId(a.packId) && SafeVersion(a.version) then Install(f, a) else Rejected
  }

  /** One entry of the synchronisation: the files afterwards and the outcome. */
  function SyncEntry(feed: Feed, e: FeedEntry, trusted: set<string>, network: Network, f: PackFiles)
    : (PackFiles, SyncStatus)
  {
    if f.active == Some(e.version) then
      (f, if e.version in f.versions && f.versions[e.version] == e.sha256 then StillUnchanged else Failed)
    else
      var installed := InstallFromFeed(feed, e.packId, trusted, network, f);
      if installed.Rejected? then (f, Failed)
      else (installed.value, if f.active.None? then Installed else Updated)
  }

  function SyncStep(feed: Feed, e: FeedEntry, trusted: set<string>, network: Network, packs: Packs): Packs {
    var files := SyncEntry(feed, e, trusted, network, FilesOf(packs, e.packId)).0;
    if files == FilesOf(packs, e.packId) then packs else packs[e.packId := files]
  }

  function SyncPacks(feed: Feed, trusted: set<string>, network: Network, packs: Packs, n: nat): Packs
    requires n <= |feed.packs|
  {
    if n == 0 then packs
    else SyncStep(feed, feed.packs[n - 1], trusted, network, SyncPacks(feed, trusted, network, packs, n - 1))
  }

  function SyncStatusAt(feed: Feed, trusted: set<string>, network: Network, packs: Packs, i: nat): SyncStatus
    requires i < |feed.packs|
  {
    SyncEntry(feed, feed.packs[i], trusted, network,
              FilesOf(SyncPacks(feed, trusted, network, packs, i), feed.packs[i].packId)).1
  }

  /** The results report each entry's outcome, in feed order. */
  ghost predicate Reports(results: seq<SyncItem>, feed: Feed, trusted: set<string>, network: Network, packs: Packs) {
    && |results| <= |feed.packs|
    && forall i | 0 <= i < |results| ::
         && results[i].packId == feed.packs[i].packId && results[i].version == feed.packs[i].version
         && results[i].status == SyncStatusAt(feed, trusted, network, packs, i)
  }

  lemma ReportsOneMore(results: seq<SyncItem>, item: SyncItem, feed: Feed, trusted: set<string>, network: Network,
                       packs: Packs)
    requires Reports(results, feed, trusted, network, packs) && |results| < |feed.packs|
    requires item.packId == feed.packs[|results|].packId && item.version == feed.packs[|results|].version
    requires item.status == SyncStatusAt(feed, trusted, network, packs, |results|)
    ensures Reports(results + [item], feed, trusted, network, packs)
  {
  }

  /** Installing one named pack through the store. */
  method InstallNamed(feed: Feed, id: string, trusted: set<string>, network: Network, store: CheckPackStore)
    returns (r: Result<string>)
    modifies store
    ensures old(store.Valid()) ==> store.Valid()
    ensures r.Ok? <==> InstallFromFeed(feed, id, trusted, network, FilesOf(old(store.packs), id)).Ok?
    ensures r.Rejected? ==> store.packs == old(store.packs)
    ensures r.Ok? ==>
      var files := InstallFromFeed(feed, id, trusted, network, FilesOf(old(store.packs), id)).value;
      store.packs == old(store.packs)[id := files]
    ensures r.Ok? ==> FilesOf(store.packs, id).active == Some(r.value)
  {
    EntryForId(feed.packs, id);
    var entry := EntryFor(feed.packs, id);
    if entry.None? {
      return Rejected;
    }
    var artifact := Fetch(entry.value, trusted, network);
    if artifact.Rejected? {
      return Rejected;
    }
    var ok := store.InstallSigned(artifact.value, trusted);
    if !ok {
      return Rejected;
    }
    return Ok(artifact.value.version);
  }

  lemma {:induction false} EntryForId(packs: seq<FeedEntry>, id: string)
    ensures EntryFor(packs, id).Some? ==> EntryFor(packs, id).value.packId == id
    decreases |packs|
  {
    if packs != [] && packs[0].packId != id {
      EntryForId(packs[1..], id);
    }
  }

  /** The store and the results after the entries reported on. */
  ghost predicate Synced(after: Packs, results: seq<SyncItem>, feed: Feed, trusted: set<string>, network: Network,
                         packs: Packs) {
    Reports(results, feed, trusted, network, packs) && after == SyncPacks(feed, trusted, network, packs, |results|)
  }

  lemma SyncedOneMore(now: Packs, results: seq<SyncItem>, item: SyncItem, feed: Feed, trusted: set<string>,
                      network: Network, packs: Packs)
    requires Synced(now, results, feed, trusted, network, packs) && |results| < |feed.packs|
    requires item.packId == feed.packs[|results|].packId && item.version == feed.packs[|results|].version
    requires item.status
      == SyncEntry(feed, feed.packs[|results|], trusted, network, FilesOf(now, feed.packs[|results|].packId)).1
    ensures Synced(SyncStep(feed, feed.packs[|results|], trusted, network, now), results + [item],
                   feed, trusted, network, packs)
  {
    ReportsOneMore(results, item, feed, trusted, network, packs);
  }

  /** `sync_verified_check_feed`. An unsafe pack identifier ends the loop where it stands. */
  method SyncFeed(feed: Feed, trusted: set<string>, network: Network, store: CheckPackStore)
    returns (results: seq<SyncItem>, completed: bool)
    modifies store
    ensures old(store.Valid()) ==> store.Valid()
    ensures completed <==> AllSafe(feed)
    ensures Synced(store.packs, results, feed, trusted, network, old(store.packs))
    ensures completed ==> |results| == |feed.packs|
  {
    results, completed := [], true;
    for i := 0 to |feed.packs|
      invariant old(store.Valid()) ==> store.Valid()
      invariant |results| == i
      invariant forall j | 0 <= j < i :: SafeId(feed.packs[j].packId)
      invariant Synced(store.packs, results, feed, trusted, network, old(store.packs))
    {
      var e := feed.packs[i];
      assert e in feed.packs;
      if !SafeId(e.packId) {
        return results, false;
      }
      ghost var now := store.packs;
      var item := SyncOne(feed, e, trusted, network, store);
      SyncedOneMore(now, results, item, feed, trusted, network, old(store.packs));
      results := results + [item];
    }
  }

  method SyncOne(feed: Feed, e: FeedEntry, trusted: set<string>, network: Network, store: CheckPackStore)
    returns (item: SyncItem)
    modifies store
    ensures old(store.Valid()) ==> store.Valid()
    ensures item.packId == e.packId && item.version == e.version
    ensures item.previous == FilesOf(old(store.packs), e.packId).active
    ensures item.active == FilesOf(store.packs, e.packId).active
    ensures item.status == SyncEntry(feed, e, trusted, network, FilesOf(old(store.packs), e.packId)).1
    ensures store.packs == SyncStep(feed, e, trusted, network, old(store.packs))
  {
    var files := FilesOf(store.packs, e.packId);
    var previous := files.active;
    if previous == Some(e.version) {
      if e.version !in files.versions || files.versions[e.version] != e.sha256 {
        return SyncItem(e.packId, e.version, previous, previous, Failed);
      }
      return SyncItem(e.packId, e.version, previous, previous, StillUnchanged);
    }
    var record := InstallNamed(feed, e.packId, trusted, network, store);
    if record.Rejected? {
      return SyncItem(e.packId, e.version, previous, previous, Failed);
    }
    item := SyncItem(e.packId, e.version, previous, Some(record.value), if previous.None? then Installed else Updated);
  }

  // ----------------------------------------------------- the dry run predicts the sync

  predicate DistinctPacks(packs: seq<FeedEntry>) {
    forall i, j | 0 <= i < j < |packs| :: packs[i].packId != packs[j].packId
  }

  /** The network serves what the feed advertises, and the pack signers are trusted. */
  predicate Serves(network: Network, trusted: set<string>, e: FeedEntry) {
    Fetch(e, trusted, network) == Ok(e.sha256)
  }

  lemma {:induction false} EntryForDistinct(packs: seq<FeedEntry>, i: nat)
    requires DistinctPacks(packs) && i < |packs|
    ensures EntryFor(packs, packs[i].packId) == Some(packs[i])
    decreases |packs|
  {
    if i > 0 {
      EntryForDistinct(packs[1..], i - 1);
    }
  }

  /** What the plan status of an entry says about synchronising it, given whether the network
      serves the entry. */
  function Predicted(status: PlanStatus, f: PackFiles, e: FeedEntry, served: bool): SyncStatus {
    match status
    case Conflict => Failed
    case InvalidLocalState => Failed
    case Unchanged => StillUnchanged
    case _ => if !served || !SafeVersion(e.version) then Failed else if f.active.None? then Installed else Updated
  }

  lemma EntryPrediction(feed: Feed, i: nat, trusted: set<string>, network: Network, f: PackFiles)
    requires DistinctPacks(feed.packs) && i < |feed.packs| && SafeId(feed.packs[i].packId)
    ensures var e := feed.packs[i]; var (files, status) := SyncEntry(feed, e, trusted, network, f);
      && status == Predicted(StatusFor(f, e), f, e, Serves(network, trusted, e))
      && (status == Failed || status == StillUnchanged ==> files == f)
      && (status == Installed || status == Updated ==> files == Install(f, e.sha256).value && Install(f, e.sha256).Ok?)
      && (status != Failed ==>
            files.active == Some(e.version) && e.version in files.versions && files.versions[e.version] == e.sha256)
  {
    EntryForDistinct(feed.packs, i);
  }

  /** Synchronising other entries leaves a pack alone. */
  lemma {:induction false} OtherPacksUntouched(feed: Feed, trusted: set<string>, network: Network, packs: Packs,
                                               n: nat, id: string)
    requires n <= |feed.packs| && forall j | 0 <= j < n :: feed.packs[j].packId != id
    ensures FilesOf(SyncPacks(feed, trusted, network, packs, n), id) == FilesOf(packs, id)
  {
    if n > 0 {
      OtherPacksUntouched(feed, trusted, network, packs, n - 1, id);
    }
  }

  /** The dry run predicts the sync: computed on the store as it was, the status of each entry
      decides its outcome, whatever the entries before it did. A status that offers a change
      is kept exactly when the network serves the entry and the advertised version can be stored
      under its name; every other status is kept whatever the network does. */
  lemma PlanPredictsSync(feed: Feed, trusted: set<string>, network: Network, packs: Packs, i: nat)
    requires DistinctPacks(feed.packs) && AllSafe(feed) && i < |feed.packs|
    ensures var e := feed.packs[i]; var f := FilesOf(packs, e.packId);
      SyncStatusAt(feed, trusted, network, packs, i) == Predicted(StatusFor(f, e), f, e, Serves(network, trusted, e))
  {
    OtherPacksUntouched(feed, trusted, network, packs, i, feed.packs[i].packId);
    EntryPrediction(feed, i, trusted, network, FilesOf(packs, feed.packs[i].packId));
  }

  lemma SyncedFiles(feed: Feed, trusted: set<string>, network: Network, packs: Packs, i: nat, n: nat)
    requires DistinctPacks(feed.packs) && i < n <= |feed.packs|
    ensures var e := feed.packs[i];
      FilesOf(SyncPacks(feed, trusted, network, packs, n), e.packId)
        == SyncEntry(feed, e, trusted, network, FilesOf(packs, e.packId)).0
    decreases n
  {
    var e := feed.packs[i];
    if n == i + 1 {
      OtherPacksUntouched(feed, trusted, network, packs, i, e.packId);
    } else {
      SyncedFiles(feed, trusted, network, packs, i, n - 1);
    }
  }

  /** A failed or unchanged entry leaves its pack's files exactly as they were. */
  lemma FailureChangesNothing(feed: Feed, trusted: set<string>, network: Network, packs: Packs, i: nat)
    requires DistinctPacks(feed.packs) && i < |feed.packs|
    requires SyncStatusAt(feed, trusted, network, packs, i) == Failed
      || SyncStatusAt(feed, trusted, network, packs, i) == StillUnchanged
    ensures FilesOf(SyncPacks(feed, trusted, network, packs, |feed.packs|), feed.packs[i].packId)
      == FilesOf(packs, feed.packs[i].packId)
  {
    OtherPacksUntouched(feed, trusted, network, packs, i, feed.packs[i].packId);
    SyncedFiles(feed, trusted, network, packs, i, |feed.packs|);
  }

  /** If an entry did not fail, its version is active with the advertised bytes afterwards, and
      a second synchronisation reports it unchanged. */
  lemma SecondSyncIsUnchanged(feed: Feed, trusted: set<string>, network: Network, packs: Packs, i: nat)
    requires DistinctPacks(feed.packs) && AllSafe(feed) && i < |feed.packs|
    requires SyncStatusAt(feed, trusted, network, packs, i) != Failed
    ensures var after := SyncPacks(feed, trusted, network, packs, |feed.packs|); var e := feed.packs[i];
      && FilesOf(after, e.packId).active == Some(e.version)
      && e.version in FilesOf(after, e.packId).versions && FilesOf(after, e.packId).versions[e.version] == e.sha256
      && StatusFor(FilesOf(after, e.packId), e) == Unchanged
      && SyncStatusAt(feed, trusted, network, after, i) == StillUnchanged
  {
    var e := feed.packs[i];
    var after := SyncPacks(feed, trusted, network, packs, |feed.packs|);
    OtherPacksUntouched(feed, trusted, network, packs, i, e.packId);
    EntryPrediction(feed, i, trusted, network, FilesOf(packs, e.packId));
    SyncedFiles(feed, trusted, network, packs, i, |feed.packs|);
    PlanPredictsSync(feed, trusted, network, after, i);
  }

  /** The one way a change on offer fails: a version that passes the feed's own checks but
      cannot name a file. */
  lemma UnsafeVersionExample()
    ensures var a := Artifact("p", "1/2", "k", true, []); var e := FeedEntry("p", "1/2", "u", a, "k");
      var network: Network := x => Some(a);
      && StatusFor(NO_FILES, e) == InstallAvailable
      && Serves(network, {"k"}, e)
      && SyncEntry(Feed("f", "t", [e]), e, {"k"}, network, NO_FILES).1 == Failed
  {
    assert !SafeVersion("1/2") by {
      assert '/' in "1/2";
    }
  }

  /** The dry run announces no download for an activation, but the synchroniser makes one: such
      an entry fails exactly when that download does. */
  lemma ActivationNeedsDownload(feed: Feed, i: nat, trusted: set<string>, network: Network, f: PackFiles)
    requires DistinctPacks(feed.packs) && i < |feed.packs| && SafeId(feed.packs[i].packId)
    requires StatusFor(f, feed.packs[i]) == ActivationAvailable && SafeVersion(feed.packs[i].version)
    ensures !PlanFor(f, feed.packs[i]).download
    ensures SyncEntry(feed, feed.packs[i], trusted, network, f).1 == Failed
      <==> Fetch(feed.packs[i], trusted, network).Rejected?
  {
    EntryForDistinct(feed.packs, i);
  }
}
