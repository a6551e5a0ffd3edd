/**
 The state shared by every request (the session store, the live sessions, the transaction index and the
 files on disk) and the indivisible actions the server performs on it. The sequential operations below
 compose these actions; the interleaved system in `Interleaving` takes them one at a time.
 */
module BlobSessions {
  import opened Wrappers
  import opened Words
  import opened Naming
  import opened Sums

  datatype Entry = Entry(path: string, charge: word)

  datatype Session = Session(transaction: Option<nat>, blobs: map<nat, Entry>)

  datatype World = World(
    directory: string,
    quota: word,                     // zero means unlimited
    usage: word,                     // the store's atomic counter
    lastSession: nat,
    lastBlob: nat,
    sessions: map<nat, Session>,
    index: map<nat, nat>,            // transaction id -> session id
    files: map<string, seq<byte>>
  )

  // ----- Session manager -----

  /** The new session is number `lastSession` of the result; `emplace` keeps an index entry that is already there. */
  function CreateSession(w: World, transaction: Option<nat>): World {
    var id := w.lastSession + 1;
    w.(lastSession := id,
       sessions := w.sessions[id := Session(transaction, map[])],
       index := if transaction.Some? && transaction.value !in w.index
                then w.index[transaction.value := id] else w.index)
  }

  /** The manager's own `dispose`: the index entry goes by key, whichever session it names. */
  function EraseSession(w: World, id: nat): World {
    if id !in w.sessions then w
    else
      var transaction := w.sessions[id].transaction;
      w.(sessions := w.sessions - {id},
         index := if transaction.Some? then w.index - {transaction.value} else w.index)
  }

  function SessionIdOf(w: World, transaction: nat): Option<nat> {
    if transaction in w.index then Some(w.index[transaction]) else None
  }

  function NextBlobId(w: World): World {
    w.(lastBlob := w.lastBlob + 1)
  }

  // ----- Entries of one session -----

  function BlobsOf(w: World, id: nat): map<nat, Entry> {
    if id in w.sessions then w.sessions[id].blobs else map[]
  }

  function WithBlobs(w: World, id: nat, blobs: map<nat, Entry>): World
    requires id in w.sessions
  {
    w.(sessions := w.sessions[id := w.sessions[id].(blobs := blobs)])
  }

  function InsertEntry(w: World, id: nat, blob: nat, path: string): World
    requires id in w.sessions
  {
    var blobs := w.sessions[id].blobs;
    if blob in blobs then w else WithBlobs(w, id, blobs[blob := Entry(path, 0)])
  }

  function Charge(w: World, id: nat, blob: nat, size: nat): World
    requires id in w.sessions && blob in w.sessions[id].blobs
  {
    var blobs := w.sessions[id].blobs;
    WithBlobs(w, id, blobs[blob := blobs[blob].(charge := Add64(blobs[blob].charge, size))])
  }

  function EraseEntry(w: World, id: nat, blob: nat): World
    requires id in w.sessions
  {
    WithBlobs(w, id, w.sessions[id].blobs - {blob})
  }

  function Find(w: World, id: nat, blob: nat): Option<string> {
    var blobs := BlobsOf(w, id);
    if blob in blobs then Some(blobs[blob].path) else None
  }

  // ----- Files -----

  function Open(w: World, path: string): World {
    w.(files := w.files[path := []])
  }

  /** A write through a stream whose file has been unlinked reaches no path. */
  function Append(w: World, path: string, data: seq<byte>): World {
    if path in w.files then w.(files := w.files[path := w.files[path] + data]) else w
  }

  function Unlink(w: World, path: string): World {
    w.(files := w.files - {path})
  }

  // ----- The counter, each call taken as one step -----

  function Reserve(w: World, size: nat): (World, bool) {
    if w.quota == 0 then (w, true)
    else if Add64(w.usage, size) > w.quota then (w, false)
    else (w.(usage := Add64(w.usage, size)), true)
  }

  function Release(w: World, size: nat): World {
    if w.quota == 0 then w else w.(usage := Sub64(w.usage, size))
  }

  // ----- Session operations, run without interference -----

  /**
   What is recorded is the canonical form of the path, as the file system gives it. `None` stands for the
   exception thrown when the file does not exist; the id is spent all the same.
   */
  function Add(w: World, id: nat, path: string, canonical: string): (World, Option<nat>)
    requires id in w.sessions
  {
    var w1 := NextBlobId(w);
    if path in w.files then (InsertEntry(w1, id, w1.lastBlob, canonical), Some(w1.lastBlob)) else (w1, None)
  }

  function CreateBlobFile(w: World, id: nat): (World, nat, string)
    requires id in w.sessions
  {
    var w1 := NextBlobId(w);
    var path := UploadPath(w.directory, w1.lastBlob);
    (InsertEntry(w1, id, w1.lastBlob, path), w1.lastBlob, path)
  }

  datatype Reservation = Granted | Refused | Vanished

  /** `Vanished` is the exception of `at`, thrown after the store has granted. */
  function ReserveFor(w: World, id: nat, blob: nat, size: nat): (World, Reservation)
    requires id in w.sessions
  {
    var (w1, granted) := Reserve(w, size);
    if !granted then (w1, Refused)
    else if blob in w1.sessions[id].blobs then (Charge(w1, id, blob, size), Granted)
    else (w1, Vanished)
  }

  function DeleteBlobFile(w: World, id: nat, blob: nat): World
    requires id in w.sessions
  {
    var blobs := w.sessions[id].blobs;
    if blob !in blobs then w
    else EraseEntry(Unlink(Release(w, blobs[blob].charge), blobs[blob].path), id, blob)
  }

  function RemoveAll(w: World, id: nat, blobs: seq<nat>): (r: World)
    requires id in w.sessions
    ensures id in r.sessions
    decreases |blobs|
  {
    if blobs == [] then w else RemoveAll(DeleteBlobFile(w, id, blobs[0]), id, blobs[1..])
  }

  ghost predicate IsLeast(least: nat, keys: set<nat>) {
    least in keys && forall b | b in keys :: least <= b
  }

  lemma LeastExists(keys: set<nat>)
    requires keys != {}
    ensures exists least :: IsLeast(least, keys)
    decreases |keys|
  {
    var k :| k in keys;
    if keys == {k} {
      assert IsLeast(k, keys);
    } else {
      LeastExists(keys - {k});
      var least :| IsLeast(least, keys - {k});
      assert forall b | b in keys :: b == k || b in keys - {k};
      if k <= least {
        assert IsLeast(k, keys);
      } else {
        assert IsLeast(least, keys);
      }
    }
  }

  /** The order in which `entries` lists the ids of an ordered map. */
  ghost function Ascending(keys: set<nat>): seq<nat>
    decreases |keys|
  {
    if keys == {} then []
    else
      LeastExists(keys);
      var least :| IsLeast(least, keys);
      [least] + Ascending(keys - {least})
  }

  lemma {:induction false} AscendingLists(keys: set<nat>)
    ensures forall b :: b in Ascending(keys) <==> b in keys
    decreases |keys|
  {
    if keys == {} {
    } else {
      LeastExists(keys);
      var least :| IsLeast(least, keys) && Ascending(keys) == [least] + Ascending(keys - {least});
      AscendingLists(keys - {least});
    }
  }

  predicate Increasing(ids: seq<nat>) {
    forall i, j | 0 <= i < j < |ids| :: ids[i] < ids[j]
  }

  /** Every id once, the smaller ones first. */
  lemma {:induction false} AscendingIsSorted(keys: set<nat>)
    ensures |Ascending(keys)| == |keys| && Increasing(Ascending(keys))
    decreases |keys|
  {
    hide Increasing;
    if keys == {} {
      NothingIncreases();
    } else {
      LeastExists(keys);
      var least :| IsLeast(least, keys) && Ascending(keys) == [least] + Ascending(keys - {least});
      AscendingIsSorted(keys - {least});
      AscendingLists(keys - {least});
      LeastFirst(least, Ascending(keys - {least}));
    }
  }

  lemma NothingIncreases()
    ensures Increasing([])
  {
  }

  lemma LeastFirst(least: nat, rest: seq<nat>)
    requires Increasing(rest) && forall b | b in rest :: least < b
    ensures Increasing([least] + rest)
  {
    var ids := [least] + rest;
    forall i, j | 0 <= i < j < |ids| ensures ids[i] < ids[j] {
      assert ids[j] == rest[j - 1] && rest[j - 1] in rest;
    }
  }

  ghost function Dispose(w: World, id: nat): World
    requires id in w.sessions
  {
    EraseSession(RemoveAll(w, id, Ascending(w.sessions[id].blobs.Keys)), id)
  }

  // ----- Ledger of charges -----

  /** Every charge of every session, keyed by session and blob. */
  ghost function Ledger(sessions: map<nat, Session>): map<(nat, nat), nat> {
    map s, b | s in sessions && b in sessions[s].blobs :: (s, b) := sessions[s].blobs[b].charge
  }

  lemma LedgerAt(sessions: map<nat, Session>, s: nat, b: nat)
    ensures (s, b) in Ledger(sessions) <==> s in sessions && b in sessions[s].blobs
    ensures (s, b) in Ledger(sessions) ==> Ledger(sessions)[(s, b)] == sessions[s].blobs[b].charge
  {
  }

  ghost predicate SameAt(l: map<(nat, nat), nat>, m: map<(nat, nat), nat>, s: nat, b: nat) {
    ((s, b) in l <==> (s, b) in m) && ((s, b) in l ==> l[(s, b)] == m[(s, b)])
  }

  lemma SameLedgers(l: map<(nat, nat), nat>, m: map<(nat, nat), nat>)
    requires forall s, b :: SameAt(l, m, s, b)
    ensures l == m
  {
    assert forall k | k in l :: SameAt(l, m, k.0, k.1) && k == (k.0, k.1);
    assert forall k | k in m :: SameAt(l, m, k.0, k.1) && k == (k.0, k.1);
  }

  lemma LedgerPut(w: World, id: nat, blob: nat, e: Entry)
    requires id in w.sessions
    ensures Ledger(WithBlobs(w, id, w.sessions[id].blobs[blob := e]).sessions)
         == Ledger(w.sessions)[(id, blob) := e.charge]
  {
    var after := WithBlobs(w, id, w.sessions[id].blobs[blob := e]).sessions;
    var want := Ledger(w.sessions)[(id, blob) := e.charge];
    forall s, b ensures SameAt(Ledger(after), want, s, b) {
      LedgerAt(after, s, b);
      LedgerAt(w.sessions, s, b);
    }
    SameLedgers(Ledger(after), want);
  }

  lemma LedgerErase(w: World, id: nat, blob: nat)
    requires id in w.sessions
    ensures Ledger(EraseEntry(w, id, blob).sessions) == Ledger(w.sessions) - {(id, blob)}
  {
    var after := EraseEntry(w, id, blob).sessions;
    var want := Ledger(w.sessions) - {(id, blob)};
    forall s, b ensures SameAt(Ledger(after), want, s, b) {
      LedgerAt(after, s, b);
      LedgerAt(w.sessions, s, b);
    }
    SameLedgers(Ledger(after), want);
  }

  lemma LedgerOfNewSession(sessions: map<nat, Session>, id: nat, transaction: Option<nat>)
    requires id !in sessions
    ensures Ledger(sessions[id := Session(transaction, map[])]) == Ledger(sessions)
  {
    var after := sessions[id := Session(transaction, map[])];
    forall s, b ensures SameAt(Ledger(after), Ledger(sessions), s, b) {
      LedgerAt(after, s, b);
      LedgerAt(sessions, s, b);
    }
    SameLedgers(Ledger(after), Ledger(sessions));
  }

  // ----- Bytes on disk -----

  ghost function StoreFiles(directory: string, files: map<string, seq<byte>>): map<string, nat> {
    map p | p in files && InStore(directory, p) :: |files[p]|
  }

  /** What the files in the store directory amount to. */
  ghost function StoreBytes(w: World): nat {
    Sum(StoreFiles(w.directory, w.files))
  }

  // ----- What all schedules keep -----

  ghost predicate Live(w: World, s: nat, b: nat) {
    s in w.sessions && b in w.sessions[s].blobs
  }

  /** Ids are bounded by their counters and no blob id occurs in two sessions. */
  ghost predicate FreshIds(w: World) {
    && (forall s | s in w.sessions :: 1 <= s <= w.lastSession)
    && (forall s: nat, b: nat | Live(w, s, b) :: 1 <= b <= w.lastBlob)
    && (forall s: nat, t: nat, b: nat | Live(w, s, b) && Live(w, t, b) :: s == t)
  }

  /** Index entries name live sessions that carry the transaction. */
  ghost predicate IndexSound(w: World) {
    forall t | t in w.index :: w.index[t] in w.sessions && w.sessions[w.index[t]].transaction == Some(t)
  }

  /** An entry is either an upload under its own name or a path added from outside the store. */
  ghost predicate PathsSound(w: World) {
    forall s: nat, b: nat | Live(w, s, b) ::
      var path := w.sessions[s].blobs[b].path;
      path == UploadPath(w.directory, b) || !InStore(w.directory, path)
  }

  ghost predicate Structure(w: World) {
    FreshIds(w) && IndexSound(w) && PathsSound(w)
  }

  lemma CreateSessionKeepsStructure(w: World, transaction: Option<nat>)
    requires Structure(w)
    ensures Structure(CreateSession(w, transaction))
    ensures forall s: nat, b: nat :: Live(CreateSession(w, transaction), s, b) <==> Live(w, s, b)
  {
    hide UploadPath, InStore;
    var r := CreateSession(w, transaction);
    assert forall s: nat, b: nat :: Live(r, s, b) <==> Live(w, s, b);
  }

  lemma EraseSessionKeepsStructure(w: World, id: nat)
    requires Structure(w)
    ensures Structure(EraseSession(w, id))
    ensures forall s: nat, b: nat :: Live(EraseSession(w, id), s, b) <==> s != id && Live(w, s, b)
  {
    hide UploadPath, InStore;
    var r := EraseSession(w, id);
    assert forall s: nat, b: nat :: Live(r, s, b) <==> s != id && Live(w, s, b);
  }

  lemma NextBlobIdKeepsStructure(w: World)
    requires Structure(w)
    ensures Structure(NextBlobId(w))
    ensures forall s: nat, b: nat :: Live(NextBlobId(w), s, b) <==> Live(w, s, b)
  {
    hide UploadPath, InStore;
    var r := NextBlobId(w);
    assert forall s: nat, b: nat :: Live(r, s, b) <==> Live(w, s, b);
  }

  ghost predicate Unborn(w: World, b: nat) {
    forall s: nat :: !Live(w, s, b)
  }

  lemma NewEntryKeepsStructure(w: World, id: nat, blob: nat, e: Entry)
    requires Structure(w) && id in w.sessions
    requires 1 <= blob <= w.lastBlob && Unborn(w, blob)
    requires e.path == UploadPath(w.directory, blob) || !InStore(w.directory, e.path)
    ensures Structure(WithBlobs(w, id, w.sessions[id].blobs[blob := e]))
    ensures forall s: nat, b: nat :: Live(WithBlobs(w, id, w.sessions[id].blobs[blob := e]), s, b)
                                <==> Live(w, s, b) || (s == id && b == blob)
  {
    hide UploadPath, InStore;
    var r := WithBlobs(w, id, w.sessions[id].blobs[blob := e]);
    assert !Live(w, id, blob);
    assert forall s: nat, b: nat :: Live(r, s, b) <==> Live(w, s, b) || (s == id && b == blob);
    assert FreshIds(r) by {
      hide IndexSound, PathsSound;
    }
  }

  lemma ChargeKeepsStructure(w: World, id: nat, blob: nat, size: nat)
    requires Structure(w) && Live(w, id, blob)
    ensures Structure(Charge(w, id, blob, size))
    ensures forall s: nat, b: nat :: Live(Charge(w, id, blob, size), s, b) <==> Live(w, s, b)
  {
    hide UploadPath, InStore;
    var r := Charge(w, id, blob, size);
    assert forall s: nat, b: nat :: Live(r, s, b) <==> Live(w, s, b);
  }

  lemma EraseEntryKeepsStructure(w: World, id: nat, blob: nat)
    requires Structure(w) && id in w.sessions
    ensures Structure(EraseEntry(w, id, blob))
    ensures forall s: nat, b: nat :: Live(EraseEntry(w, id, blob), s, b) <==> Live(w, s, b) && (s != id || b != blob)
  {
    hide UploadPath, InStore;
    var r := EraseEntry(w, id, blob);
    assert forall s: nat, b: nat :: Live(r, s, b) <==> Live(w, s, b) && (s != id || b != blob);
  }

  /** Neither the counter nor the files matter to the structure. */
  lemma StructureIgnoresFilesAndUsage(w: World, files: map<string, seq<byte>>, usage: word)
    requires Structure(w)
    ensures Structure(w.(files := files, usage := usage))
    ensures forall s: nat, b: nat :: Live(w.(files := files, usage := usage), s, b) <==> Live(w, s, b)
  {
    hide UploadPath, InStore;
    var r := w.(files := files, usage := usage);
    assert forall s: nat, b: nat :: Live(r, s, b) <==> Live(w, s, b);
  }
}
