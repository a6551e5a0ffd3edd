/** Sequences of whole operations, any number of them over any number of sessions. */
module Runs {
  import opened Wrappers
  import opened Words
  import opened Naming
  import opened Sums
  import opened BlobSessions
  import opened Removal
  import opened Streaming
  import opened Uploads

  /** The last two are the outside world: a file is moved away, a file appears outside the store. */
  datatype Operation =
    | OpenSession(transaction: Option<nat>)
    | DisposeSession(session: nat)
    | AddPath(session: nat, path: string, canonical: string)
    | RemoveBlobs(session: nat, blobs: seq<nat>)
    | Upload(opens: bool, messages: seq<Message>)
    | MoveAway(path: string)
    | CreateOutside(path: string, data: seq<byte>)

  /** A session that is not live cannot be called upon. */
  ghost function Apply(w: World, config: Config, op: Operation): World {
    match op
    case OpenSession(transaction) => CreateSession(w, transaction)
    case DisposeSession(id) => if id in w.sessions then Dispose(w, id) else w
    case AddPath(id, path, canonical) => if id in w.sessions then Add(w, id, path, canonical).0 else w
    case RemoveBlobs(id, blobs) => if id in w.sessions then RemoveAll(w, id, blobs) else w
    case Upload(opens, messages) => Put(w, config, opens, messages).0
    case MoveAway(path) => Unlink(w, path)
    case CreateOutside(path, data) => w.(files := w.files[path := data])
  }

  /** Paths given from outside name files outside the store, and no chunk overflows the 64-bit comparison. */
  ghost predicate Allowed(w: World, op: Operation) {
    match op
    case AddPath(_, _, canonical) => !InStore(w.directory, canonical)
    case CreateOutside(path, _) => !InStore(w.directory, path)
    case Upload(_, messages) => NoWrap(w.quota, messages)
    case _ => true
  }

  ghost function Run(w: World, config: Config, ops: seq<Operation>): World
    decreases |ops|
  {
    if ops == [] then w else Run(Apply(w, config, ops[0]), config, ops[1..])
  }

  ghost predicate AllowedRun(w: World, config: Config, ops: seq<Operation>)
    decreases |ops|
  {
    ops != [] ==> Allowed(w, ops[0]) && AllowedRun(Apply(w, config, ops[0]), config, ops[1..])
  }

  // ----- Invariant -----

  /** The store file `p` belongs to this entry and is as long as its charge says. */
  ghost predicate Owns(w: World, s: nat, b: nat, p: string) {
    && Live(w, s, b) && p in w.files
    && p == UploadPath(w.directory, b) && w.sessions[s].blobs[b].path == p
    && w.sessions[s].blobs[b].charge == |w.files[p]| % WORD_LIMIT
    && (w.quota != 0 ==> |w.files[p]| < WORD_LIMIT)
  }

  ghost predicate FilesOwned(w: World) {
    forall p | p in w.files && InStore(w.directory, p) :: exists s, b :: Owns(w, s, b, p)
  }

  ghost predicate Inv(w: World) {
    Structure(w) && FilesOwned(w) && Accounted(w)
  }

  lemma InvGivesReady(w: World, id: nat)
    requires Inv(w) && id in w.sessions
    ensures Ready(w, id)
    ensures Unborn(w, w.lastBlob + 1)
  {
    hide Ledger;
    assert !Live(w, id, w.lastBlob + 1);
    var path := UploadPath(w.directory, w.lastBlob + 1);
    PathsAreDistinct(w.directory, UPLOAD, w.lastBlob + 1, UPLOAD, w.lastBlob + 1);
    if path in w.files {
      var s: nat, b: nat :| Owns(w, s, b, path);
      PathsAreDistinct(w.directory, UPLOAD, w.lastBlob + 1, UPLOAD, b);
      assert false;
    }
  }

  lemma CreateKeepsInv(w: World, transaction: Option<nat>)
    requires Inv(w)
    ensures Inv(CreateSession(w, transaction))
  {
    hide Ledger, UploadPath, InStore, PathsSound, IndexSound;
    var r := CreateSession(w, transaction);
    CreateSessionKeepsStructure(w, transaction);
    LedgerOfNewSession(w.sessions, r.lastSession, transaction);
    assert FilesOwned(r) by {
      forall p | p in r.files && InStore(r.directory, p) ensures exists s, b :: Owns(r, s, b, p) {
        var s: nat, b: nat :| Owns(w, s, b, p);
        assert Owns(r, s, b, p);
      }
    }
  }

  lemma DeleteKeepsInv(w: World, id: nat, blob: nat)
    requires Inv(w) && id in w.sessions
    ensures Inv(DeleteBlobFile(w, id, blob))
  {
    hide Accounted, UploadPath, InStore, FreshIds, PathsSound, IndexSound;
    DeleteKeepsAccounted(w, id, blob);
    if blob in w.sessions[id].blobs {
      var r := DeleteBlobFile(w, id, blob);
      StructureIgnoresFilesAndUsage(w, r.files, r.usage);
      EraseEntryKeepsStructure(w.(files := r.files, usage := r.usage), id, blob);
      assert FilesOwned(r) by {
        forall p | p in r.files && InStore(r.directory, p) ensures exists s, b :: Owns(r, s, b, p) {
          var s: nat, b: nat :| Owns(w, s, b, p);
          assert Owns(r, s, b, p);
        }
      }
    }
  }

  lemma {:induction false} RemoveKeepsInv(w: World, id: nat, blobs: seq<nat>)
    requires Inv(w) && id in w.sessions
    ensures Inv(RemoveAll(w, id, blobs))
    decreases |blobs|
  {
    hide Inv;
    if blobs == [] {
    } else {
      DeleteKeepsInv(w, id, blobs[0]);
      RemoveKeepsInv(DeleteBlobFile(w, id, blobs[0]), id, blobs[1..]);
    }
  }

  lemma ErasingEmptyKeepsInv(w: World, id: nat)
    requires Inv(w) && id in w.sessions && w.sessions[id].blobs == map[]
    ensures Inv(EraseSession(w, id))
  {
    hide Ledger, UploadPath, InStore, FreshIds, PathsSound, IndexSound;
    var r := EraseSession(w, id);
    EraseSessionKeepsStructure(w, id);
    LedgerOfEmptySession(w.sessions, id);
    assert FilesOwned(r) by {
      forall p | p in r.files && InStore(r.directory, p) ensures exists s, b :: Owns(r, s, b, p) {
        var s: nat, b: nat :| Owns(w, s, b, p);
        assert Owns(r, s, b, p);
      }
    }
  }

  lemma DisposeKeepsInv(w: World, id: nat)
    requires Inv(w) && id in w.sessions
    ensures Inv(Dispose(w, id))
  {
    hide Inv;
    var keys: set<nat> := w.sessions[id].blobs.Keys;
    var listed := Ascending(keys);
    RemoveKeepsInv(w, id, listed);
    AscendingLists(keys);
    RemoveAllIsRemoveSet(w, id, listed);
    assert Elements(listed) == keys;
    assert RemoveAll(w, id, listed).sessions[id].blobs == map[];
    ErasingEmptyKeepsInv(RemoveAll(w, id, listed), id);
  }

  lemma SpendingIdKeepsInv(w: World)
    requires Inv(w)
    ensures Inv(NextBlobId(w))
  {
    hide Ledger, UploadPath, InStore, FreshIds, PathsSound, IndexSound;
    var r := NextBlobId(w);
    NextBlobIdKeepsStructure(w);
    assert FilesOwned(r) by {
      forall p | p in r.files && InStore(r.directory, p) ensures exists s, b :: Owns(r, s, b, p) {
        var s: nat, b: nat :| Owns(w, s, b, p);
        assert Owns(r, s, b, p);
      }
    }
  }

  /** Files outside the store may appear, files anywhere may vanish. */
  lemma FilesMayChange(w: World, files: map<string, seq<byte>>)
    requires Inv(w)
    requires forall p | p in files && InStore(w.directory, p) :: p in w.files && w.files[p] == files[p]
    ensures Inv(w.(files := files))
  {
    hide Ledger, UploadPath, InStore, FreshIds, PathsSound, IndexSound;
    var r := w.(files := files);
    StructureIgnoresFilesAndUsage(w, files, w.usage);
    assert FilesOwned(r) by {
      forall p | p in r.files && InStore(r.directory, p) ensures exists s, b :: Owns(r, s, b, p) {
        var s: nat, b: nat :| Owns(w, s, b, p);
        assert Owns(r, s, b, p);
      }
    }
  }

  /** A new entry of charge zero for a path outside the store. */
  lemma InsertKeepsInv(w: World, id: nat, path: string)
    requires Inv(w) && id in w.sessions && !InStore(w.directory, path)
    ensures Inv(InsertEntry(NextBlobId(w), id, w.lastBlob + 1, path))
  {
    InvGivesReady(w, id);
    hide Accounted, FilesOwned, InStore, UploadPath, FreshIds, PathsSound, IndexSound;
    NextBlobIdKeepsStructure(w);
    NewEntryKeepsStructure(NextBlobId(w), id, w.lastBlob + 1, Entry(path, 0));
    InsertKeepsAccounted(w, id, path);
    InsertKeepsFilesOwned(w, id, path);
  }

  lemma InsertKeepsAccounted(w: World, id: nat, path: string)
    requires Accounted(w) && id in w.sessions && w.lastBlob + 1 !in w.sessions[id].blobs
    ensures Accounted(InsertEntry(NextBlobId(w), id, w.lastBlob + 1, path))
  {
    hide Ledger;
    var blob := w.lastBlob + 1;
    LedgerPut(NextBlobId(w), id, blob, Entry(path, 0));
    LedgerAt(w.sessions, id, blob);
    SumPut(Ledger(w.sessions), (id, blob), 0);
  }

  lemma InsertKeepsFilesOwned(w: World, id: nat, path: string)
    requires FilesOwned(w) && id in w.sessions && w.lastBlob + 1 !in w.sessions[id].blobs
    ensures FilesOwned(InsertEntry(NextBlobId(w), id, w.lastBlob + 1, path))
  {
    hide UploadPath, InStore;
    var r := InsertEntry(NextBlobId(w), id, w.lastBlob + 1, path);
    forall p | p in r.files && InStore(r.directory, p) ensures exists s, b :: Owns(r, s, b, p) {
      var s: nat, b: nat :| Owns(w, s, b, p);
      assert Owns(r, s, b, p);
    }
  }

  lemma UploadAccounts(w: World, id: nat, data: seq<byte>)
    requires Inv(w) && Ready(w, id) && Fits(w, |data|)
    ensures Accounted(WithUpload(w, id, data))
  {
    hide Ledger;
    var blob := w.lastBlob + 1;
    var e := Entry(UploadPath(w.directory, blob), |data| % WORD_LIMIT);
    LedgerPut(w, id, blob, e);
    LedgerAt(w.sessions, id, blob);
    SumPut(Ledger(w.sessions), (id, blob), e.charge);
    assert WithUpload(w, id, data).sessions == WithBlobs(w, id, w.sessions[id].blobs[blob := e]).sessions;
  }

  lemma UploadKeepsStructure(w: World, id: nat, data: seq<byte>)
    requires Inv(w) && id in w.sessions && Fits(w, |data|)
    ensures Ready(w, id) && Structure(WithUpload(w, id, data))
  {
    InvGivesReady(w, id);
    var r := WithUpload(w, id, data);
    var blob := w.lastBlob + 1;
    var e := Entry(UploadPath(w.directory, blob), |data| % WORD_LIMIT);
    hide Accounted, UploadPath, InStore, FreshIds, PathsSound, IndexSound;
    NextBlobIdKeepsStructure(w);
    NewEntryKeepsStructure(NextBlobId(w), id, blob, e);
    StructureIgnoresFilesAndUsage(WithBlobs(NextBlobId(w), id, w.sessions[id].blobs[blob := e]), r.files, r.usage);
  }

  lemma UploadKeepsInv(w: World, id: nat, data: seq<byte>)
    requires Inv(w) && id in w.sessions && Fits(w, |data|)
    ensures Ready(w, id) && Inv(WithUpload(w, id, data))
  {
    UploadKeepsStructure(w, id, data);
    UploadAccounts(w, id, data);
    UploadKeepsFilesOwned(w, id, data);
    hide Accounted, Structure, FilesOwned, WithUpload, Ready;
  }

  lemma UploadKeepsFilesOwned(w: World, id: nat, data: seq<byte>)
    requires Ready(w, id) && Fits(w, |data|) && FilesOwned(w)
    ensures FilesOwned(WithUpload(w, id, data))
  {
    hide UploadPath, InStore;
    var r := WithUpload(w, id, data);
    var blob := w.lastBlob + 1;
    forall p | p in r.files && InStore(r.directory, p) ensures exists s, b :: Owns(r, s, b, p) {
      if p == UploadPath(w.directory, blob) {
        assert Owns(r, id, blob, p);
      } else {
        var s: nat, b: nat :| Owns(w, s, b, p);
        assert Owns(r, s, b, p);
      }
    }
  }

  lemma PutKeepsInv(w: World, config: Config, opens: bool, messages: seq<Message>)
    requires Inv(w) && NoWrap(w.quota, messages)
    ensures Inv(Put(w, config, opens, messages).0)
  {
    hide Inv, UploadPath, WithUpload, Receive, Payload, AllChunks, SizeAgrees, NoWrap;
    if messages != [] && messages[0].Metadata? && messages[0].session in w.sessions && messages[0].apiVersion <= API_VERSION {
      var id := messages[0].session;
      var path := UploadPath(w.directory, w.lastBlob + 1);
      InvGivesReady(w, id);
      var data := if opens then Payload(messages[1..]) else [];
      SpendingIdKeepsInv(w);
      if Fits(w, |data|) {
        UploadKeepsInv(w, id, data);
        FilesMayChange(WithUpload(w, id, data), WithUpload(w, id, data).files - {path});
      }
      PutOutcome(w, config, opens, id, messages);
    }
  }

  /** Every operation keeps the invariant. */
  lemma OperationKeepsInv(w: World, config: Config, op: Operation)
    requires Inv(w) && Allowed(w, op)
    ensures Inv(Apply(w, config, op))
  {
    hide Inv, Put, Dispose, RemoveAll, CreateSession;
    match op
    case OpenSession(transaction) => CreateKeepsInv(w, transaction);
    case DisposeSession(id) => if id in w.sessions { DisposeKeepsInv(w, id); }
    case AddPath(id, _, canonical) =>
      if id in w.sessions {
        SpendingIdKeepsInv(w);
        InsertKeepsInv(w, id, canonical);
      }
    case RemoveBlobs(id, blobs) => if id in w.sessions { RemoveKeepsInv(w, id, blobs); }
    case Upload(opens, messages) => PutKeepsInv(w, config, opens, messages);
    case MoveAway(path) => FilesMayChange(w, w.files - {path});
    case CreateOutside(path, data) => FilesMayChange(w, w.files[path := data]);
  }

  // ----- Whole runs -----

  /** The constructor removes what it finds in the store directory. */
  ghost function Start(directory: string, quota: word, files: map<string, seq<byte>>): World {
    World(directory, quota, 0, 0, 0, map[], map[], map p | p in files && !InStore(directory, p) :: files[p])
  }

  lemma StartIsSound(directory: string, quota: word, files: map<string, seq<byte>>)
    ensures Inv(Start(directory, quota, files))
  {
    var w := Start(directory, quota, files);
    assert Ledger(w.sessions) == map[];
  }

  lemma {:induction false} RunKeepsInv(w: World, config: Config, ops: seq<Operation>)
    requires Inv(w) && AllowedRun(w, config, ops)
    ensures Inv(Run(w, config, ops))
    decreases |ops|
  {
    hide Inv;
    if ops == [] {
    } else {
      OperationKeepsInv(w, config, ops[0]);
      RunKeepsInv(Apply(w, config, ops[0]), config, ops[1..]);
    }
  }

  /** No store file has two owners. */
  lemma OwnerIsUnique(w: World, p: string, s: nat, b: nat, t: nat, c: nat)
    requires Inv(w) && Owns(w, s, b, p) && Owns(w, t, c, p)
    ensures s == t && b == c
  {
    PathsAreDistinct(w.directory, UPLOAD, b, UPLOAD, c);
  }

  ghost predicate IsOwner(w: World, p: string, owner: (nat, nat)) {
    Owns(w, owner.0, owner.1, p)
  }

  lemma OwnerPays(w: World, p: string, owner: (nat, nat))
    requires Inv(w) && w.quota != 0 && IsOwner(w, p, owner)
    ensures owner in Ledger(w.sessions) && |w.files[p]| <= Ledger(w.sessions)[owner]
    ensures p == UploadPath(w.directory, owner.1)
  {
    LedgerAt(w.sessions, owner.0, owner.1);
  }

  /** Between operations the store files take no more bytes than the counter says, and that is within the quota. */
  lemma DiskWithinQuota(w: World)
    requires Inv(w) && w.quota != 0
    ensures StoreBytes(w) <= w.usage <= w.quota
  {
    hide Structure, Ledger, UploadPath, InStore;
    var sizes := StoreFiles(w.directory, w.files);
    forall p | p in sizes ensures exists owner :: IsOwner(w, p, owner) {
      var s: nat, b: nat :| Owns(w, s, b, p);
      assert IsOwner(w, p, (s, b));
    }
    hide FilesOwned, Owns;
    var owners: map<string, (nat, nat)> := map p | p in sizes :: var owner :| IsOwner(w, p, owner); owner;
    forall p | p in sizes ensures owners[p] in Ledger(w.sessions) && sizes[p] <= Ledger(w.sessions)[owners[p]]
                               && p == UploadPath(w.directory, owners[p].1)
    {
      OwnerPays(w, p, owners[p]);
    }
    SumInjection(sizes, Ledger(w.sessions), owners);
  }

  /** When every session has been disposed, the counter is back at zero and no upload is left in the store. */
  lemma NothingIsLeftBehind(w: World)
    requires Inv(w) && w.sessions == map[]
    ensures w.usage == 0
    ensures forall p | p in w.files :: !InStore(w.directory, p)
  {
    assert Ledger(w.sessions) == map[];
    forall p | p in w.files ensures !InStore(w.directory, p) {
      assert forall s: nat, b: nat :: !Owns(w, s, b, p);
    }
  }

  ghost function DisposalOf(ids: seq<nat>): seq<Operation> {
    seq(|ids|, i requires 0 <= i < |ids| => DisposeSession(ids[i]))
  }

  /** Disposing all live sessions, in any order and with repetitions, ends a run from any sound state cleanly. */
  lemma {:induction false} DisposingAllEmpties(w: World, config: Config, ids: seq<nat>)
    requires Inv(w) && w.sessions.Keys <= Elements(ids)
    ensures var r := Run(w, config, DisposalOf(ids));
            r.usage == 0 && r.sessions == map[] && forall p | p in r.files :: !InStore(r.directory, p)
    decreases |ids|
  {
    if ids == [] {
      assert w.sessions == map[];
      NothingIsLeftBehind(w);
    } else {
      var next := Apply(w, config, DisposeSession(ids[0]));
      OperationKeepsInv(w, config, DisposeSession(ids[0]));
      assert DisposalOf(ids)[1..] == DisposalOf(ids[1..]);
      assert Elements(ids) == {ids[0]} + Elements(ids[1..]);
      if ids[0] in w.sessions {
        DisposeIsExact(w, ids[0]);
      }
      hide Inv;
      DisposingAllEmpties(next, config, ids[1..]);
    }
  }
}
