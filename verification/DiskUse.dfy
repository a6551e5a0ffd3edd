/** Under a quota, bytes on disk never outrun the accounts, at any single step of any interleaving. */
module DiskUse {
  import opened Wrappers
  import opened Naming
  import opened Sums
  import opened BlobSessions
  import opened Interleaving
  import opened Threads
  import opened Books
  import Loop = ReserveLoop

  function ChargeOf(w: World, id: nat, b: nat): nat {
    if b in BlobsOf(w, id) then BlobsOf(w, id)[b].charge else 0
  }

  /** Paths added from outside cost nothing. */
  ghost predicate OutsideIsFree(w: World) {
    forall s: nat, b: nat | Live(w, s, b) :: w.sessions[s].blobs[b].path == UploadPath(w.directory, b) || w.sessions[s].blobs[b].charge == 0
  }

  /** Between opening and the end of the stream, what is in the file and what is about to be written is charged. */
  predicate Within(w: World, pc: Pc) {
    pc.Receiving? || pc.Waiting? || pc.Reserving? || pc.Writing? ==>
      var p := UploadPath(w.directory, pc.blob);
      p in w.files ==> |w.files[p]| + (if pc.Writing? then |pc.data| else 0) <= ChargeOf(w, pc.session, pc.blob)
  }

  /** A store file that holds anything is paid for by an account under its own id. */
  ghost predicate PaidBy(s: System, p: string, a: nat, b: nat) {
    && (a, b) in Accounts(s) && p == UploadPath(s.w.directory, b)
    && p in s.w.files && |s.w.files[p]| <= Accounts(s)[(a, b)]
  }

  ghost predicate AllPaid(s: System) {
    forall p | p in s.w.files && InStore(s.w.directory, p) && s.w.files[p] != [] :: exists a, b :: PaidBy(s, p, a, b)
  }

  /** When an entry is about to be erased its file is gone or empty, and nobody is about to fill it. */
  predicate Emptied(w: World, pc: Pc, other: Pc) {
    pc.Erasing? && Runnable(w, pc) && w.sessions[pc.session].blobs[pc.blobs[0]].path == UploadPath(w.directory, pc.blobs[0]) ==>
      var p := UploadPath(w.directory, pc.blobs[0]);
      p in w.files ==> w.files[p] == [] && !(other.Writing? && other.blob == pc.blobs[0])
  }

  ghost predicate AllWithin(w: World, threads: map<nat, Pc>) {
    forall t | t in threads :: Within(w, threads[t])
  }

  ghost predicate AllEmptied(w: World, threads: map<nat, Pc>) {
    forall t, u | t in threads && u in threads :: Emptied(w, threads[t], threads[u])
  }

  ghost predicate DiskOk(s: System) {
    OutsideIsFree(s.w) && AllWithin(s.w, s.threads) && AllPaid(s) && AllEmptied(s.w, s.threads)
  }

  // ----- Steps that change files only -----

  /** The file under blob id `b` is what it was, or is gone. */
  predicate FileKept(w: World, after: World, b: nat) {
    var p := UploadPath(w.directory, b);
    p in after.files ==> p in w.files && w.files[p] == after.files[p]
  }

  lemma WithinStays(w: World, after: World, pc: Pc)
    requires Within(w, pc) && after.sessions == w.sessions && after.directory == w.directory
    requires pc.InHand().Some? ==> FileKept(w, after, pc.blob)
    ensures Within(after, pc)
  {
    hide UploadPath;
  }

  lemma EmptiedStays(w: World, after: World, pc: Pc, other: Pc)
    requires Emptied(w, pc, other) && after.sessions == w.sessions && after.directory == w.directory
    requires pc.Erasing? && Runnable(w, pc) ==> FileKept(w, after, pc.blobs[0])
    ensures Emptied(after, pc, other)
  {
    hide UploadPath;
  }

  /** Store files are what they were, or are gone, except possibly the thread's `own` upload. */
  ghost predicate OnlyOwnFile(w: World, after: World, own: Option<nat>) {
    && after.sessions == w.sessions && after.directory == w.directory && after.quota == w.quota
    && forall p | p in after.files && InStore(w.directory, p) ::
         (p in w.files && w.files[p] == after.files[p]) || (own.Some? && p == UploadPath(w.directory, own.value))
  }

  lemma OthersKept(w: World, after: World, own: Option<nat>, b: nat)
    requires OnlyOwnFile(w, after, own) && own != Some(b)
    ensures FileKept(w, after, b)
  {
    PathsAreDistinct(w.directory, UPLOAD, b, UPLOAD, if own.Some? then own.value else b);
  }

  /** Its own file, if it is there, is covered, and if the entry is being erased it is empty. */
  ghost predicate OwnFileFine(s: System, after: World, own: Option<nat>) {
    own.Some? ==>
      var p := UploadPath(after.directory, own.value);
      p in after.files ==>
        && (after.files[p] != [] ==> exists a :: (a, own.value) in Accounts(s) && |after.files[p]| <= Accounts(s)[(a, own.value)])
        && (after.files[p] != [] ==>
              forall u | u in s.threads && s.threads[u].Erasing? && s.threads[u].blobs != [] && Runnable(after, s.threads[u]) ::
                s.threads[u].blobs[0] != own.value)
  }

  lemma PaidAfterFiles(s: System, after: System, own: Option<nat>)
    requires AllPaid(s) && OnlyOwnFile(s.w, after.w, own) && OwnFileFine(s, after.w, own) && after.orphans == s.orphans
    ensures AllPaid(after)
  {
    SameAccounts(s, after);
    hide Accounts, UploadPath, InStore;
    forall p | p in after.w.files && InStore(after.w.directory, p) && after.w.files[p] != []
      ensures exists a, b :: PaidBy(after, p, a, b)
    {
      if own.Some? && p == UploadPath(s.w.directory, own.value) {
        var a :| (a, own.value) in Accounts(s) && |after.w.files[p]| <= Accounts(s)[(a, own.value)];
        assert PaidBy(after, p, a, own.value);
      } else {
        var a: nat, b: nat :| PaidBy(s, p, a, b);
        assert PaidBy(after, p, a, b);
      }
    }
  }

  lemma WithinAfterFiles(s: System, t: nat, pc: Pc, after: World, own: Option<nat>)
    requires DrawnOnce(s.threads) && AllWithin(s.w, s.threads) && t in s.threads && OnlyOwnFile(s.w, after, own)
    requires own.Some? ==> s.threads[t].InHand() == own
    requires Within(after, pc)
    ensures AllWithin(after, s.threads[t := pc])
  {
    hide Within, UploadPath, InStore;
    forall u | u in s.threads && u != t ensures Within(after, s.threads[u]) {
      if s.threads[u].InHand().Some? {
        assert own != s.threads[u].InHand();
        OthersKept(s.w, after, own, s.threads[u].blob);
      }
      WithinStays(s.w, after, s.threads[u]);
    }
  }

  /** The pair of threads `x` erasing, `y` perhaps writing, after a step that only touches `own`. */
  lemma EmptiedPair(s: System, after: World, own: Option<nat>, x: Pc, y: Pc)
    requires Emptied(s.w, x, y) && OnlyOwnFile(s.w, after, own) && OwnFileFine(s, after, own)
    requires exists u | u in s.threads :: s.threads[u] == x
    requires own.Some? ==> y.InHand() != own
    ensures Emptied(after, x, y)
  {
    if x.Erasing? && Runnable(s.w, x) {
      if own != Some(x.blobs[0]) {
        OthersKept(s.w, after, own, x.blobs[0]);
        EmptiedStays(s.w, after, x, y);
      }
    }
  }

  /** The file of the entry about to be erased is gone. */
  predicate Unlinked(w: World, pc: Pc) {
    pc.Deletes() && Runnable(w, pc) && w.sessions[pc.session].blobs[pc.blobs[0]].path !in w.files
  }

  /** A thread that is neither erasing nor writing endangers nobody. */
  lemma HarmlessThread(w: World, x: Pc, y: Pc)
    requires x.Erasing? ==> Unlinked(w, x)
    ensures Emptied(w, x, y)
  {
  }

  lemma EmptiedAfterFiles(s: System, t: nat, pc: Pc, after: World, own: Option<nat>)
    requires DrawnOnce(s.threads) && AllEmptied(s.w, s.threads) && t in s.threads
    requires OnlyOwnFile(s.w, after, own) && OwnFileFine(s, after, own)
    requires own.Some? ==> s.threads[t].InHand() == own && !pc.Erasing? && !pc.Writing?
    requires pc.Writing? ==> pc == s.threads[t]
    requires pc.Erasing? ==> pc == s.threads[t] || Unlinked(after, pc)
    ensures AllEmptied(after, s.threads[t := pc])
  {
    hide UploadPath, InStore, OnlyOwnFile, OwnFileFine, FileKept;
    var threads := s.threads[t := pc];
    forall x, y | x in threads && y in threads ensures Emptied(after, threads[x], threads[y]) {
      if x == t && pc != s.threads[t] {
        hide Emptied;
        HarmlessThread(after, pc, threads[y]);
      } else if y == t && !pc.Writing? {
        if own.None? {
          EmptiedPair(s, after, own, threads[x], s.threads[y]);
        } else {
          assert Emptied(s.w, threads[x], Idle);
          EmptiedPair(s, after, own, threads[x], Idle);
        }
      } else {
        hide Emptied;
        EmptiedPair(s, after, own, threads[x], threads[y]);
      }
    }
  }

  /** A step that leaves the sessions' maps alone and writes to no file but the thread's own upload. */
  lemma FilesMove(s: System, t: nat, pc: Pc, after: System, own: Option<nat>)
    requires Sound(s) && DiskOk(s) && t in s.threads && after.threads == s.threads[t := pc] && after.orphans == s.orphans
    requires OnlyOwnFile(s.w, after.w, own) && OwnFileFine(s, after.w, own)
    requires own.Some? ==> s.threads[t].InHand() == own && !pc.Erasing? && !pc.Writing?
    requires pc.Writing? ==> pc == s.threads[t]
    requires pc.Erasing? ==> pc == s.threads[t] || Unlinked(after.w, pc)
    requires Within(after.w, pc)
    ensures DiskOk(after)
  {
    hide UploadPath, InStore, OwnFileFine, AllPaid, AllWithin, AllEmptied, Within, Structure, PcOk, Accounts;
    PaidAfterFiles(s, after, own);
    WithinAfterFiles(s, t, pc, after.w, own);
    EmptiedAfterFiles(s, t, pc, after.w, own);
  }

  // ----- Steps that change a session's map -----

  /** Accounts only grow. */
  ghost predicate AccountsGrow(s: System, after: System) {
    forall k | k in Accounts(s) :: k in Accounts(after) && Accounts(s)[k] <= Accounts(after)[k]
  }

  lemma PaidStays(s: System, after: System)
    requires AllPaid(s) && after.w.directory == s.w.directory && after.w.files == s.w.files && AccountsGrow(s, after)
    ensures AllPaid(after)
  {
    hide Accounts, InStore, UploadPath;
    forall p | p in after.w.files && InStore(after.w.directory, p) && after.w.files[p] != []
      ensures exists a, b :: PaidBy(after, p, a, b)
    {
      var a: nat, b: nat :| PaidBy(s, p, a, b);
      assert PaidBy(after, p, a, b);
    }
  }

  /** What the other threads hold locked is as it was. */
  ghost predicate LockedStays(s: System, t: nat, after: World) {
    && after.directory == s.w.directory && after.files == s.w.files
    && forall u | u in s.threads && u != t && s.threads[u].Lock().Some? ::
         s.threads[u].session in s.w.sessions && BlobsOf(after, s.threads[u].session) == BlobsOf(s.w, s.threads[u].session)
  }

  /** What the other threads upload has lost no charge. */
  ghost predicate HandsKeepCharge(s: System, t: nat, after: World) {
    forall u | u in s.threads && u != t && s.threads[u].InHand().Some? ::
      ChargeOf(s.w, s.threads[u].session, s.threads[u].blob) <= ChargeOf(after, s.threads[u].session, s.threads[u].blob)
  }

  lemma EmptiedAfterMaps(s: System, t: nat, pc: Pc, after: World)
    requires AllEmptied(s.w, s.threads) && t in s.threads && LockedStays(s, t, after) && !pc.Erasing?
    requires pc.Writing? ==> forall u | u in s.threads && u != t && s.threads[u].Erasing? && s.threads[u].blobs != [] :: s.threads[u].blobs[0] != pc.blob
    ensures AllEmptied(after, s.threads[t := pc])
  {
    hide UploadPath;
    var threads := s.threads[t := pc];
    forall x, y | x in threads && y in threads ensures Emptied(after, threads[x], threads[y]) {
      if x != t {
        assert Emptied(s.w, s.threads[x], s.threads[y]);
      }
    }
  }

  lemma WithinAfterMaps(s: System, t: nat, pc: Pc, after: World)
    requires AllWithin(s.w, s.threads) && t in s.threads && after.files == s.w.files && after.directory == s.w.directory
    requires HandsKeepCharge(s, t, after) && Within(after, pc)
    ensures AllWithin(after, s.threads[t := pc])
  {
    hide UploadPath;
    forall u | u in s.threads && u != t ensures Within(after, s.threads[u]) {
      assert Within(s.w, s.threads[u]);
    }
  }

  /** Under its mutex the thread inserts or charges the entry of the id it drew. */
  lemma EntryMoves(s: System, t: nat, id: nat, b: nat, e: Entry, pc: Pc, after: System)
    requires Sound(s) && OrphansDead(s) && DiskOk(s) && t in s.threads && id in s.w.sessions
    requires s.threads[t].Lock() == Some(id) && s.threads[t].InHand() == Some(b)
    requires after.threads == s.threads[t := pc] && after.orphans == s.orphans
    requires after.w == WithBlobs(s.w, id, s.w.sessions[id].blobs[b := e])
    requires ChargeOf(s.w, id, b) <= e.charge && (e.path == UploadPath(s.w.directory, b) || e.charge == 0)
    requires Within(after.w, pc) && !pc.Erasing?
    requires pc.Writing? ==> pc.blob == b && b in s.w.sessions[id].blobs
    ensures DiskOk(after)
  {
    hide Sound, LockedStays, HandsKeepCharge, UploadPath, InStore, AllPaid, AllWithin, AllEmptied, OutsideIsFree, Within, Ledger;
    assert AccountsGrow(s, after) by {
      LedgerPut(s.w, id, b, e);
      LedgerAt(s.w.sessions, id, b);
    }
    MapEntryIsOwn(s, t, id, b, e);
    EntryIsFree(s.w, id, b, e);
    if pc.Writing? {
      NobodyErases(s, t, id, b);
    }
    PaidStays(s, after);
    WithinAfterMaps(s, t, pc, after.w);
    EmptiedAfterMaps(s, t, pc, after.w);
  }

  /** No other thread holds that session's mutex, and none has drawn that id. */
  lemma MapEntryIsOwn(s: System, t: nat, id: nat, b: nat, e: Entry)
    requires Sound(s) && t in s.threads && id in s.w.sessions
    requires s.threads[t].Lock() == Some(id) && s.threads[t].InHand() == Some(b)
    ensures var after := WithBlobs(s.w, id, s.w.sessions[id].blobs[b := e]);
            LockedStays(s, t, after) && HandsKeepCharge(s, t, after)
  {
    forall u | u in s.threads && u != t && s.threads[u].Lock().Some? ensures s.threads[u].session in s.w.sessions {
      assert PcOk(s.w, s.threads[u]);
    }
    hide PcOk, Structure;
  }

  lemma EntryIsFree(w: World, id: nat, b: nat, e: Entry)
    requires OutsideIsFree(w) && id in w.sessions && (e.path == UploadPath(w.directory, b) || e.charge == 0)
    ensures OutsideIsFree(WithBlobs(w, id, w.sessions[id].blobs[b := e]))
  {
    hide UploadPath;
    forall a: nat, c: nat | Live(WithBlobs(w, id, w.sessions[id].blobs[b := e]), a, c) && (a != id || c != b) ensures Live(w, a, c) {
    }
  }

  lemma NobodyErases(s: System, t: nat, id: nat, b: nat)
    requires Sound(s) && t in s.threads && s.threads[t].Lock() == Some(id) && Live(s.w, id, b)
    ensures forall u | u in s.threads && u != t && s.threads[u].Erasing? && s.threads[u].blobs != [] :: s.threads[u].blobs[0] != b
  {
    forall u | u in s.threads && u != t && s.threads[u].Erasing? && s.threads[u].blobs != [] ensures s.threads[u].blobs[0] != b {
      assert PcOk(s.w, s.threads[u]);
      assert Live(s.w, s.threads[u].session, s.threads[u].blobs[0]);
    }
  }

  /** The last step of deleting an entry: nothing was left in its file. */
  lemma EntryGoes(s: System, t: nat, pc: Pc, after: System)
    requires Sound(s) && OrphansDead(s) && DiskOk(s) && t in s.threads && s.threads[t] == pc && pc.Erasing? && Runnable(s.w, pc)
    requires after == Delete(s, t, pc)
    ensures DiskOk(after)
  {
    hide Sound, LockedStays, UploadPath, InStore, AllPaid, AllWithin, AllEmptied, OutsideIsFree, OrphansDead, Within, Ledger, Accounts;
    var id, b := pc.session, pc.blobs[0];
    ErasedEntryIsOwn(s, t, pc);
    ErasedEntryIsFree(s.w, id, b);
    forall u | u in s.threads && u != t ensures Within(after.w, s.threads[u]) {
      WithinWhenEntryGoes(s, t, pc, after.w, u);
    }
    PaidWhenEntryGoes(s, t, pc, after);
    assert Within(after.w, after.threads[t]) by { NotUploading(after.w, after.threads[t]); }
    CollectWithin(after.w, after.threads);
    EmptiedAfterMaps(s, t, after.threads[t], after.w);
  }

  lemma ErasedEntryIsOwn(s: System, t: nat, pc: Pc)
    requires Sound(s) && t in s.threads && s.threads[t] == pc && pc.Erasing? && Runnable(s.w, pc)
    ensures LockedStays(s, t, EraseEntry(s.w, pc.session, pc.blobs[0]))
  {
    forall u | u in s.threads && u != t && s.threads[u].Lock().Some? ensures s.threads[u].session in s.w.sessions {
      assert PcOk(s.w, s.threads[u]);
    }
    hide PcOk, Structure;
  }

  lemma ErasedEntryIsFree(w: World, id: nat, b: nat)
    requires OutsideIsFree(w) && id in w.sessions
    ensures OutsideIsFree(EraseEntry(w, id, b))
  {
    hide UploadPath;
    forall a: nat, c: nat | Live(EraseEntry(w, id, b), a, c) ensures Live(w, a, c) {
    }
  }

  lemma NotUploading(w: World, pc: Pc)
    requires !pc.Uploads()
    ensures Within(w, pc)
  {
  }

  lemma CollectWithin(w: World, threads: map<nat, Pc>)
    requires forall u | u in threads :: Within(w, threads[u])
    ensures AllWithin(w, threads)
  {
  }

  lemma WithinWhenEntryGoes(s: System, t: nat, pc: Pc, after: World, u: nat)
    requires Sound(s) && DiskOk(s) && t in s.threads && s.threads[t] == pc && pc.Erasing? && Runnable(s.w, pc)
    requires after == EraseEntry(s.w, pc.session, pc.blobs[0]) && u in s.threads && u != t
    ensures Within(after, s.threads[u])
  {
    hide UploadPath, InStore, AllPaid, Structure, Exclusive, DrawnOnce;
    var other := s.threads[u];
    assert Within(s.w, other) && PcOk(s.w, other) && Emptied(s.w, pc, other);
  }

  lemma NothingPaidByErased(s: System, t: nat, pc: Pc, p: string)
    requires OrphansDead(s) && DiskOk(s) && t in s.threads && s.threads[t] == pc && pc.Erasing? && Runnable(s.w, pc)
    requires p in s.w.files && s.w.files[p] != []
    ensures !PaidBy(s, p, pc.session, pc.blobs[0])
  {
    hide UploadPath, InStore, AllWithin, AllPaid, Ledger, Accounts;
    assert Emptied(s.w, pc, pc) && Live(s.w, pc.session, pc.blobs[0]);
    AccountsWithout(s, pc.session, pc.blobs[0]);
  }

  lemma PaidWhenEntryGoes(s: System, t: nat, pc: Pc, after: System)
    requires OrphansDead(s) && DiskOk(s) && t in s.threads && s.threads[t] == pc && pc.Erasing? && Runnable(s.w, pc)
    requires after == Delete(s, t, pc)
    ensures AllPaid(after)
  {
    hide UploadPath, InStore, AllWithin, AllEmptied, Ledger, Accounts;
    AccountsWithout(s, pc.session, pc.blobs[0]);
    SameAccounts(s.(w := EraseEntry(s.w, pc.session, pc.blobs[0])), after);
    assert after.w.files == s.w.files && after.w.directory == s.w.directory;
    forall p | p in after.w.files && InStore(after.w.directory, p) && after.w.files[p] != []
      ensures exists a, c :: PaidBy(after, p, a, c)
    {
      var a: nat, c: nat :| PaidBy(s, p, a, c);
      NothingPaidByErased(s, t, pc, p);
      assert PaidBy(after, p, a, c);
    }
  }

  lemma ErasedSessionKeepsDisk(s: System, t: nat, pc: Pc, after: System)
    requires Sound(s) && OrphansDead(s) && DiskOk(s) && Enabled(s, t, Proceed) && s.threads[t] == pc && Runnable(s.w, pc)
    requires pc.Removing? && pc.blobs == [] && pc.disposing && after == Delete(s, t, pc)
    ensures DiskOk(after)
  {
    hide Sound, AllPaid, AllWithin, AllEmptied, Within, OutsideIsFree, Ledger, Accounts, Remains, OrphansDead, EraseSession, Locked;
    var id := pc.session;
    AccountsOfErasedSession(s, id);
    SameAccounts(s.(w := EraseSession(s.w, id), orphans := s.orphans + Remains(s.w, id)), after);
    SessionsInUse(s);
    ErasedSessionIsFree(s.w, id);
    PaidStays(s, after);
    NotUploading(after.w, Idle);
    WithinAfterMaps(s, t, Idle, after.w);
    EmptiedAfterMaps(s, t, Idle, after.w);
  }

  lemma ErasedSessionIsFree(w: World, id: nat)
    requires OutsideIsFree(w) && id in w.sessions
    ensures var after := EraseSession(w, id);
            && OutsideIsFree(after) && after.sessions == w.sessions - {id}
            && after.files == w.files && after.directory == w.directory && after.quota == w.quota
  {
    hide UploadPath;
    forall a: nat, c: nat | Live(EraseSession(w, id), a, c) ensures Live(w, a, c) {
    }
  }

  lemma SessionsInUse(s: System)
    requires Sound(s)
    ensures s.w.lastSession + 1 !in s.w.sessions
    ensures forall u | u in s.threads && s.threads[u].Uses().Some? :: s.threads[u].session in s.w.sessions
  {
    forall u | u in s.threads && s.threads[u].Uses().Some? ensures s.threads[u].session in s.w.sessions {
      assert PcOk(s.w, s.threads[u]);
    }
  }

  lemma NewSessionKeepsDisk(s: System, t: nat, transaction: Option<nat>)
    requires Sound(s) && DiskOk(s) && t in s.threads && s.threads[t].Idle?
    ensures DiskOk(s.(w := CreateSession(s.w, transaction)))
  {
    hide Sound, UploadPath, InStore, AllPaid, AllWithin, AllEmptied, Within, Ledger, Accounts;
    var after := s.(w := CreateSession(s.w, transaction));
    SessionsInUse(s);
    AccountsOfNewSession(s, transaction);
    assert OutsideIsFree(after.w) by {
      forall a: nat, c: nat | Live(after.w, a, c) ensures Live(s.w, a, c) {
      }
    }
    PaidStays(s, after);
    NotUploading(after.w, Idle);
    WithinAfterMaps(s, t, Idle, after.w);
    EmptiedAfterMaps(s, t, Idle, after.w);
    assert s.threads[t := Idle] == s.threads;
  }

  // ----- Every step -----

  /** A step that changes neither maps nor files. */
  lemma QuietMove(s: System, t: nat, pc: Pc, after: System)
    requires Sound(s) && DiskOk(s) && t in s.threads && after.threads == s.threads[t := pc] && after.orphans == s.orphans
    requires after.w.sessions == s.w.sessions && after.w.files == s.w.files
    requires after.w.directory == s.w.directory && after.w.quota == s.w.quota
    requires !pc.Erasing? && !pc.Writing?
    requires Within(s.w, pc)
    ensures DiskOk(after)
  {
    hide UploadPath, InStore, AllPaid, AllWithin, AllEmptied, OutsideIsFree, Sound;
    FilesMove(s, t, pc, after, None);
  }

  /** Outside events, and a file removed with or without the thread moving on. */
  lemma FilesGo(s: System, t: nat, pc: Pc, after: System)
    requires Sound(s) && DiskOk(s) && t in s.threads && after.threads == s.threads[t := pc] && after.orphans == s.orphans
    requires OnlyOwnFile(s.w, after.w, None)
    requires pc == s.threads[t] || pc.Idle? || (pc.Erasing? && Unlinked(after.w, pc))
    ensures DiskOk(after)
  {
    hide UploadPath, InStore, AllPaid, AllEmptied, OutsideIsFree, Sound, Unlinked;
    if pc == s.threads[t] {
      assert Within(s.w, pc);
      if pc.InHand().Some? {
        OthersKept(s.w, after.w, None, pc.blob);
      }
      hide OnlyOwnFile, Within;
      assert OnlyOwnFile(s.w, after.w, None) && after.w.sessions == s.w.sessions && after.w.directory == s.w.directory by { SameMaps(s.w, after.w); }
      WithinStays(s.w, after.w, pc);
    } else {
      NotUploading(after.w, pc);
    }
    FilesMove(s, t, pc, after, None);
  }

  lemma SameMaps(w: World, after: World)
    requires OnlyOwnFile(w, after, None)
    ensures after.sessions == w.sessions && after.directory == w.directory
  {
  }

  lemma BeginKeepsDisk(s: System, t: nat, a: Action)
    requires Sound(s) && DiskOk(s) && Enabled(s, t, a) && !a.Proceed?
    ensures DiskOk(Begin(s, t, a))
  {
    hide UploadPath, InStore, AllPaid, AllEmptied, OutsideIsFree, Sound, Ascending;
    var pc, after := s.threads[t], Begin(s, t, a);
    assert Within(s.w, pc);
    assert s.threads[t := pc] == s.threads;
    if a.OpenSession? {
      NewSessionKeepsDisk(s, t, a.transaction);
    } else if a.MoveAway? || a.CreateOutside? || a.EndStream? {
      FilesGo(s, t, after.threads[t], after);
    } else {
      QuietMove(s, t, after.threads[t], after);
    }
  }

  lemma AppendKeepsDisk(s: System, t: nat, pc: Pc)
    requires t in s.threads && s.threads[t] == pc && Runnable(s.w, pc) && pc.Writing? && PcOk(s.w, pc)
    requires Sound(s) && OrphansDead(s) && DiskOk(s)
    ensures DiskOk(Upload(s, t, pc))
  {
    hide UploadPath, InStore, AllPaid, Ledger, OutsideIsFree, IndexSound, PathsSound;
    var after := Upload(s, t, pc);
    var id, b, p := pc.session, pc.blob, UploadPath(s.w.directory, pc.blob);
    assert Within(s.w, pc);
    LedgerAt(s.w.sessions, id, b);
    if p in after.w.files && after.w.files[p] != [] {
      assert ChargeOf(s.w, id, b) > 0 && Live(s.w, id, b);
      assert (id, b) in Accounts(s) && |after.w.files[p]| <= Accounts(s)[(id, b)] by {
        assert (id, b) !in s.orphans;
      }
      forall u | u in s.threads && s.threads[u].Erasing? && Runnable(after.w, s.threads[u]) ensures s.threads[u].blobs[0] != b {
        assert Emptied(s.w, s.threads[u], pc);
        assert Live(s.w, s.threads[u].session, s.threads[u].blobs[0]);
      }
    }
    hide AllEmptied, Accounts, Structure;
    FilesMove(s, t, after.threads[t], after, Some(b));
  }

  lemma GrantKeepsDisk(s: System, t: nat, pc: Pc)
    requires t in s.threads && s.threads[t] == pc && Runnable(s.w, pc) && s.w.quota != 0
    requires pc.Reserving? && pc.phase.Granted? && pc.blob in s.w.sessions[pc.session].blobs
    requires PcOk(s.w, pc) && Sound(s) && BooksOk(s) && DiskOk(s)
    ensures DiskOk(Upload(s, t, pc))
  {
    hide UploadPath, InStore, AllPaid, AllEmptied, Ledger, OutsideIsFree, Accounts, Grants, Releases, Sound;
    var id, b := pc.session, pc.blob;
    var after := Upload(s, t, pc);
    ChargeFits(s, t, id, b);
    assert Within(s.w, pc);
    EntryMoves(s, t, id, b, after.w.sessions[id].blobs[b], after.threads[t], after);
  }

  lemma InsertKeepsDisk(s: System, t: nat, pc: Pc)
    requires t in s.threads && s.threads[t] == pc && Runnable(s.w, pc) && pc.Inserting?
    requires PcOk(s.w, pc) && Sound(s) && OrphansDead(s) && DiskOk(s)
    ensures DiskOk(Upload(s, t, pc))
  {
    assert !Live(s.w, pc.session, pc.blob);
    hide UploadPath, InStore, AllPaid, AllEmptied, OutsideIsFree, Sound, PcOk, DiskOk, OrphansDead;
    var after := Upload(s, t, pc);
    EntryMoves(s, t, pc.session, pc.blob, Entry(UploadPath(s.w.directory, pc.blob), 0), after.threads[t], after);
  }

  lemma UploadKeepsDisk(s: System, t: nat, pc: Pc)
    requires Enabled(s, t, Proceed) && pc == s.threads[t] && Runnable(s.w, pc) && s.w.quota != 0
    requires pc.Creating? || pc.Uploads()
    requires PcOk(s.w, pc) && Sound(s) && BooksOk(s) && OrphansDead(s) && DiskOk(s)
    ensures DiskOk(Upload(s, t, pc))
  {
    hide Sound, BooksOk, PcOk, DiskOk, OrphansDead, Upload, Locked, UsedByOther;
    if pc.Inserting? {
      InsertKeepsDisk(s, t, pc);
    } else if pc.Opening? {
      OpenKeepsDisk(s, t, pc);
    } else if pc.Writing? {
      AppendKeepsDisk(s, t, pc);
    } else if pc.Reserving? && pc.phase.Granted? && pc.blob in s.w.sessions[pc.session].blobs {
      GrantKeepsDisk(s, t, pc);
    } else {
      QuietUploadKeepsDisk(s, t, pc);
    }
  }

  /** Steps of an upload that touch neither an entry nor a file. */
  lemma QuietUploadKeepsDisk(s: System, t: nat, pc: Pc)
    requires Enabled(s, t, Proceed) && pc == s.threads[t] && Runnable(s.w, pc) && s.w.quota != 0
    requires pc.Creating? || pc.Receiving? || pc.Waiting? || pc.Reserving?
    requires pc.Reserving? && pc.phase.Granted? ==> pc.blob !in s.w.sessions[pc.session].blobs
    requires Sound(s) && OrphansDead(s) && DiskOk(s)
    ensures DiskOk(Upload(s, t, pc))
  {
    hide Sound, DiskOk, OrphansDead, Upload, Within, Locked, UsedByOther;
    var after := Upload(s, t, pc);
    QuietUploadMoves(s, t, pc);
    ThreadIsWithin(s, t);
    QuietUploadIsWithin(s.w, pc, after.threads[t]);
    QuietMove(s, t, after.threads[t], after);
  }

  lemma ThreadIsWithin(s: System, t: nat)
    requires t in s.threads && DiskOk(s)
    ensures Within(s.w, s.threads[t])
  {
    hide Within, AllPaid, AllEmptied, OutsideIsFree;
  }

  lemma QuietUploadMoves(s: System, t: nat, pc: Pc)
    requires t in s.threads && pc == s.threads[t] && Runnable(s.w, pc)
    requires pc.Creating? || pc.Receiving? || pc.Waiting? || pc.Reserving?
    requires pc.Reserving? && pc.phase.Granted? ==> pc.blob !in s.w.sessions[pc.session].blobs
    ensures var after := Upload(s, t, pc);
            && t in after.threads && after.threads == s.threads[t := after.threads[t]] && after.orphans == s.orphans
            && after.w.sessions == s.w.sessions && after.w.files == s.w.files
            && after.w.directory == s.w.directory && after.w.quota == s.w.quota
            && (after.threads[t] == pc || after.threads[t].Inserting? || after.threads[t].Idle? || after.threads[t].Removing?
                || (after.threads[t].Reserving? && (pc.Waiting? || pc.Reserving?) && after.threads[t].session == pc.session && after.threads[t].blob == pc.blob))
  {
    hide InsertEntry, Charge, Append, Open, Loop.Advance, UploadPath;
    assert s.threads[t := pc] == s.threads;
  }

  lemma QuietUploadIsWithin(w: World, pc: Pc, next: Pc)
    requires Within(w, pc)
    requires next == pc || next.Inserting? || next.Idle? || next.Removing?
             || (next.Reserving? && (pc.Waiting? || pc.Reserving?) && next.session == pc.session && next.blob == pc.blob)
    ensures Within(w, next)
  {
    hide UploadPath;
  }

  lemma OpenKeepsDisk(s: System, t: nat, pc: Pc)
    requires t in s.threads && s.threads[t] == pc && Runnable(s.w, pc) && pc.Opening?
    requires Sound(s) && DiskOk(s)
    ensures DiskOk(Upload(s, t, pc))
  {
    hide UploadPath, InStore, AllPaid, AllEmptied, OutsideIsFree, Sound, DiskOk;
    var after := Upload(s, t, pc);
    FilesMove(s, t, after.threads[t], after, Some(pc.blob));
  }

  lemma DeleteKeepsDisk(s: System, t: nat, pc: Pc)
    requires Enabled(s, t, Proceed) && pc == s.threads[t] && Runnable(s.w, pc)
    requires pc.Removing? || pc.Deletes()
    requires Sound(s) && OrphansDead(s) && DiskOk(s)
    ensures DiskOk(Delete(s, t, pc))
  {
    hide UploadPath, InStore, AllPaid, AllEmptied, OutsideIsFree, Sound, DiskOk, OrphansDead, Remains;
    var after := Delete(s, t, pc);
    if pc.Erasing? {
      EntryGoes(s, t, pc, after);
    } else if pc.Unlinking? {
      FilesGo(s, t, after.threads[t], after);
    } else if pc.Removing? && pc.blobs == [] && pc.disposing {
      ErasedSessionKeepsDisk(s, t, pc, after);
    } else {
      QuietMove(s, t, after.threads[t], after);
    }
  }

  lemma OtherKeepsDisk(s: System, t: nat, pc: Pc)
    requires Enabled(s, t, Proceed) && pc == s.threads[t] && Runnable(s.w, pc)
    requires !pc.Creating? && !pc.Uploads() && !pc.Removing? && !pc.Deletes()
    requires PcOk(s.w, pc) && Sound(s) && OrphansDead(s) && DiskOk(s)
    ensures DiskOk(Other(s, t, pc))
  {
    assert pc.Registering? ==> !Live(s.w, pc.session, pc.blob);
    hide UploadPath, InStore, AllPaid, AllEmptied, OutsideIsFree, Sound, PcOk, DiskOk, OrphansDead;
    var after := Other(s, t, pc);
    if pc.Registering? && pc.path in s.w.files {
      NotUploading(after.w, Idle);
      EntryMoves(s, t, pc.session, pc.blob, Entry(pc.canonical, 0), Idle, after);
    } else {
      QuietMove(s, t, after.threads[t], after);
    }
  }

  /** Every step of every thread keeps the disk within the accounts. */
  lemma StepKeepsDisk(s: System, t: nat, a: Action)
    requires Enabled(s, t, a) && s.w.quota != 0
    requires Sound(s) && BooksOk(s) && DiskOk(s)
    ensures Runnable(s.w, s.threads[t]) && DiskOk(Step(s, t, a))
  {
    var pc := s.threads[t];
    assert PcOk(s.w, pc);
    assert OrphansDead(s);
    hide Sound, BooksOk, PcOk, DiskOk, OrphansDead;
    if !a.Proceed? {
      BeginKeepsDisk(s, t, a);
    } else if pc.Creating? || pc.Uploads() {
      UploadKeepsDisk(s, t, pc);
    } else if pc.Removing? || pc.Deletes() {
      DeleteKeepsDisk(s, t, pc);
    } else {
      OtherKeepsDisk(s, t, pc);
    }
  }

  // ----- What it comes to -----

  ghost predicate IsPayer(s: System, p: string, payer: (nat, nat)) {
    PaidBy(s, p, payer.0, payer.1)
  }

  /** At every step: what is on disk is at most the counter and what is being released. */
  lemma DiskWithinAccounts(s: System)
    requires s.w.quota != 0 && BooksOk(s) && DiskOk(s)
    ensures StoreBytes(s.w) <= s.w.usage + Sum(Releases(s.threads))
    ensures s.w.usage <= s.w.quota
  {
    hide Accounts, Releases, Grants, UploadPath, InStore, OrphansDead, OutsideIsFree, AllWithin, AllEmptied;
    var sizes := StoreFiles(s.w.directory, s.w.files);
    forall p | p in sizes && sizes[p] > 0 ensures exists payer :: IsPayer(s, p, payer) {
      var a: nat, b: nat :| PaidBy(s, p, a, b);
      assert IsPayer(s, p, (a, b));
    }
    hide AllPaid;
    var payers: map<string, (nat, nat)> := map p | p in sizes && sizes[p] > 0 :: var payer :| IsPayer(s, p, payer); payer;
    SumInjection(sizes, Accounts(s), payers);
  }
}
