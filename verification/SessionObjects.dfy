/** The objects of the server and their methods, each proved to do to the shared state what `BlobSessions` says. */
module SessionObjects {
  import opened Wrappers
  import opened Words
  import opened Naming
  import opened BlobSessions

  class Disk {
    var files: map<string, seq<byte>>

    constructor (files: map<string, seq<byte>>)
      ensures this.files == files
    {
      this.files := files;
    }

    /** `std::filesystem::remove`: a file that is not there is no error. */
    method Remove(path: string)
      modifies this`files
      ensures files == old(files) - {path}
    {
      if path in files {
        files := files - {path};
      }
    }
  }

  /** What `reserve` does to the counter and answers while others change the counter under it. */
  function ReserveAmong(quota: word, counter: word, size: nat, others: seq<word>): (word, bool)
    decreases |others|
  {
    if Add64(counter, size) > quota then (counter, false)
    else if others != [] && others[0] != counter then ReserveAmong(quota, others[0], size, others[1..])
    else (Add64(counter, size), true)
  }

  /** Whatever the others do, the answer is right for a value the counter really had, and a grant adds to that value. */
  lemma {:induction false} ReserveAmongIsJust(quota: word, counter: word, size: nat, others: seq<word>) returns (held: word)
    requires quota + size < WORD_LIMIT
    requires counter <= quota && forall i | 0 <= i < |others| :: others[i] <= quota
    ensures held == counter || held in others
    ensures var (after, granted) := ReserveAmong(quota, counter, size, others);
            granted == (held + size <= quota) && after == if granted then held + size else held
    decreases |others|
  {
    held := counter;
    if Add64(counter, size) <= quota && others != [] && others[0] != counter {
      held := ReserveAmongIsJust(quota, others[0], size, others[1..]);
    }
  }

  class SessionStore {
    const directory: string
    const quota: word
    const disk: Disk
    var currentSize: word

    constructor (disk: Disk, directory: string, quota: word)
      ensures this.disk == disk && this.directory == directory && this.quota == quota && currentSize == 0
    {
      this.disk, this.directory, this.quota, this.currentSize := disk, directory, quota, 0;
    }

    /**
     The compare-exchange loop. `others` are the values other threads give the counter, one just before each
     exchange, for as long as there are any.
     */
    method Reserve(size: nat, others: seq<word>) returns (granted: bool)
      modifies this`currentSize
      ensures (currentSize, granted)
           == if quota == 0 then (old(currentSize), true) else ReserveAmong(quota, old(currentSize), size, others)
    {
      if quota != 0 {
        var current := currentSize;
        var i := 0;
        while true
          invariant current == currentSize && i <= |others|
          invariant ReserveAmong(quota, currentSize, size, others[i..]) == ReserveAmong(quota, old(currentSize), size, others)
          decreases |others| - i
        {
          if Add64(current, size) > quota {
            return false;
          }
          if i < |others| {
            currentSize := others[i];
            i := i + 1;
          }
          if currentSize == current {
            currentSize := Add64(current, size);
            return true;
          }
          current := currentSize;
        }
      }
      return true;
    }

    method Remove(size: nat)
      modifies this`currentSize
      ensures currentSize == if quota == 0 then old(currentSize) else Sub64(old(currentSize), size)
    {
      if quota != 0 {
        currentSize := Sub64(currentSize, size);
      }
    }
  }

  datatype FileKind = Directory | Symlink | OtherKind

  /**
   What the operating system says of the path given as the directory, with links followed and without; `stuck`
   are the files it refuses to remove.
   */
  datatype DirectoryStatus = DirectoryStatus(present: bool, kind: FileKind, ownKind: FileKind, writable: bool, stuck: set<string>)

  datatype StartError = Missing | NotADirectory | NotWritable | Remains(path: string)

  /** The first reason not to start, if there is one apart from files that stay. */
  function Objection(status: DirectoryStatus): Option<StartError> {
    if !status.present then Some(Missing)
    else if status.kind != Directory && !(status.kind == Symlink && status.ownKind == Directory) then Some(NotADirectory)
    else if !status.writable then Some(NotWritable)
    else None
  }

  /** Each refusal has its condition; there is none exactly for a directory that is there and can be written to. */
  lemma ObjectionExactlyWhen(status: DirectoryStatus)
    ensures var directory := status.kind == Directory || (status.kind == Symlink && status.ownKind == Directory);
            && (Objection(status) == Some(Missing) <==> !status.present)
            && (Objection(status) == Some(NotADirectory) <==> status.present && !directory)
            && (Objection(status) == Some(NotWritable) <==> status.present && directory && !status.writable)
            && (Objection(status) == None <==> status.present && directory && status.writable)
  {
  }

  function OutsideFiles(files: map<string, seq<byte>>, directory: string): map<string, seq<byte>> {
    map p | p in files && !InStore(directory, p) :: files[p]
  }

  /**
   The store's construction. It succeeds exactly if the path is a directory one can write to and every file in it
   can be removed, and then leaves none; files elsewhere are never touched.
   */
  method OpenStore(disk: Disk, directory: string, quota: word, status: DirectoryStatus) returns (r: Result<SessionStore, StartError>)
    modifies disk
    ensures r.Success? <==> Objection(status) == None && forall p | p in old(disk.files) && InStore(directory, p) :: p !in status.stuck
    ensures r.Success? ==>
              && fresh(r.value) && r.value.disk == disk && r.value.directory == directory
              && r.value.quota == quota && r.value.currentSize == 0
              && disk.files == OutsideFiles(old(disk.files), directory)
    ensures forall p | p in old(disk.files) && !InStore(directory, p) :: p in disk.files
    ensures forall p | p in disk.files :: p in old(disk.files) && disk.files[p] == old(disk.files)[p] && (r.Success? ==> !InStore(directory, p))
    ensures Objection(status).Some? ==> r == Failure(Objection(status).value) && disk.files == old(disk.files)
    ensures r.Failure? && Objection(status).None? ==>
              && r.error.Remains? && r.error.path in status.stuck && r.error.path in disk.files && InStore(directory, r.error.path)
              && OutsideFiles(disk.files, directory) == OutsideFiles(old(disk.files), directory)
  {
    if Objection(status).Some? {
      return Failure(Objection(status).value);
    }
    ghost var before := disk.files;
    var found := set p | p in disk.files && InStore(directory, p);
    while found != {}
      modifies disk
      invariant found == set p | p in disk.files && InStore(directory, p)
      invariant forall p :: p in disk.files <==> p in before && (InStore(directory, p) ==> p in found)
      invariant forall p | p in disk.files :: disk.files[p] == before[p]
      invariant forall p | p in before && InStore(directory, p) && p !in found :: p !in status.stuck
      decreases found
    {
      var path :| path in found;
      if path in status.stuck {
        return Failure(Remains(path));
      }
      disk.files := disk.files - {path};
      found := found - {path};
    }
    var store := new SessionStore(disk, directory, quota);
    return Success(store);
  }

  /** A session; the wrapper handed to clients and its implementation are one object here. */
  class BlobSession {
    const id: nat
    const transaction: Option<nat>
    const manager: SessionManager
    var blobs: map<nat, Entry>

    constructor (id: nat, transaction: Option<nat>, manager: SessionManager)
      ensures this.id == id && this.transaction == transaction && this.manager == manager && blobs == map[]
    {
      this.id, this.transaction, this.manager, this.blobs := id, transaction, manager, map[];
    }

    ghost function View(): Session
      reads this
    {
      Session(transaction, blobs)
    }

    /** The session is the one its manager keeps under its id. */
    ghost predicate Attached()
      reads this, manager, manager.sessions.Values
    {
      manager.Valid() && id in manager.sessions && manager.sessions[id] == this
    }

    method Find(blob: nat) returns (path: Option<string>)
      requires Attached()
      ensures path == BlobSessions.Find(manager.View(), id, blob)
    {
      if blob in blobs { return Some(blobs[blob].path); }
      return None;
    }

    /** Every id once, the smaller ones first. */
    method Entries() returns (ids: seq<nat>)
      ensures ids == Ascending(blobs.Keys)
      ensures |ids| == |blobs.Keys| && (forall b :: b in ids <==> b in blobs)
      ensures forall i, j | 0 <= i < j < |ids| :: ids[i] < ids[j]
    {
      ids := [];
      var rest := blobs.Keys;
      while rest != {}
        invariant Ascending(blobs.Keys) == ids + Ascending(rest)
        decreases rest
      {
        LeastExists(rest);
        var first :| first in rest && forall b | b in rest :: first <= b;
        assert IsLeast(first, rest);
        assert Ascending(rest) == [first] + Ascending(rest - {first});
        ids := ids + [first];
        rest := rest - {first};
      }
      hide Ascending;
      AscendingLists(blobs.Keys);
      AscendingIsSorted(blobs.Keys);
    }

    /** `emplace`: an entry that is already there stays. */
    method Emplace(blob: nat, path: string)
      requires Attached()
      modifies this`blobs
      ensures Attached()
      ensures manager.View() == InsertEntry(old(manager.View()), id, blob, path)
      ensures blob in blobs && blobs == if blob in old(blobs) then old(blobs) else old(blobs)[blob := Entry(path, 0)]
    {
      if blob !in blobs {
        blobs := blobs[blob := Entry(path, 0)];
        assert manager.View().sessions == old(manager.View()).sessions[id := View()];
      }
    }

    method Add(path: string, canonical: string) returns (blob: Option<nat>)
      requires Attached()
      modifies this`blobs, manager`lastBlob
      ensures Attached()
      ensures (manager.View(), blob) == BlobSessions.Add(old(manager.View()), id, path, canonical)
    {
      var newBlob := manager.NewBlobId();
      assert manager.View() == NextBlobId(old(manager.View()));
      if path in manager.store.disk.files {
        Emplace(newBlob, canonical);
        return Some(newBlob);
      }
      return None;
    }

    method CreateBlobFile() returns (blob: nat, path: string)
      requires Attached()
      modifies this`blobs, manager`lastBlob
      ensures Attached()
      ensures (manager.View(), blob, path) == BlobSessions.CreateBlobFile(old(manager.View()), id)
    {
      blob := manager.NewBlobId();
      assert manager.View() == NextBlobId(old(manager.View()));
      path := UploadPath(manager.store.directory, blob);
      Emplace(blob, path);
    }

    method AddCharge(blob: nat, size: nat)
      requires Attached() && blob in blobs
      modifies this`blobs
      ensures Attached()
      ensures manager.View() == Charge(old(manager.View()), id, blob, size)
    {
      blobs := blobs[blob := blobs[blob].(charge := Add64(blobs[blob].charge, size))];
      assert manager.View().sessions == old(manager.View()).sessions[id := View()];
    }

    method ReserveSessionStore(blob: nat, size: nat) returns (r: Reservation)
      requires Attached()
      modifies this`blobs, manager.store`currentSize
      ensures Attached()
      ensures (manager.View(), r) == ReserveFor(old(manager.View()), id, blob, size)
    {
      var granted := manager.store.Reserve(size, []);
      assert manager.View().sessions == old(manager.View()).sessions;
      assert (manager.View(), granted) == Reserve(old(manager.View()), size);
      if !granted {
        return Refused;
      }
      if blob !in blobs {
        return Vanished;
      }
      AddCharge(blob, size);
      return Granted;
    }

    method Erase(blob: nat)
      requires Attached()
      modifies this`blobs
      ensures Attached()
      ensures manager.View() == EraseEntry(old(manager.View()), id, blob)
    {
      blobs := blobs - {blob};
      assert manager.View().sessions == old(manager.View()).sessions[id := View()];
    }

    method DeleteBlobFile(blob: nat)
      requires Attached()
      modifies this`blobs, manager.store`currentSize, manager.store.disk`files
      ensures Attached()
      ensures manager.View() == BlobSessions.DeleteBlobFile(old(manager.View()), id, blob)
    {
      if blob in blobs {
        manager.store.Remove(blobs[blob].charge);
        manager.store.disk.Remove(blobs[blob].path);
        assert manager.View() == Unlink(Release(old(manager.View()), blobs[blob].charge), blobs[blob].path);
        Erase(blob);
      }
    }

    /** `remove` over a range of ids. */
    method Remove(ids: seq<nat>)
      requires Attached()
      modifies this`blobs, manager.store`currentSize, manager.store.disk`files
      ensures Attached()
      ensures manager.View() == RemoveAll(old(manager.View()), id, ids)
    {
      for i := 0 to |ids|
        invariant Attached()
        invariant RemoveAll(manager.View(), id, ids[i..]) == RemoveAll(old(manager.View()), id, ids)
      {
        assert ids[i..][0] == ids[i] && ids[i..][1..] == ids[i + 1..];
        DeleteBlobFile(ids[i]);
      }
    }

    method Dispose()
      requires Attached()
      modifies this`blobs, manager.store`currentSize, manager.store.disk`files, manager`sessions, manager`index
      ensures manager.Valid()
      ensures manager.View() == BlobSessions.Dispose(old(manager.View()), id)
    {
      hide Ascending, RemoveAll;
      var ids := Entries();
      Remove(ids);
      manager.Dispose(id);
    }
  }

  class SessionManager {
    const store: SessionStore
    var lastSession: nat
    var lastBlob: nat
    var sessions: map<nat, BlobSession>
    var index: map<nat, nat>

    ghost predicate Valid()
      reads this, sessions.Values
    {
      forall s | s in sessions :: s <= lastSession && sessions[s].id == s && sessions[s].manager == this
    }

    /** The shared state that the objects hold between them. */
    ghost function View(): World
      reads this, store, store.disk, sessions.Values
    {
      World(store.directory, store.quota, store.currentSize, lastSession, lastBlob,
            map s | s in sessions :: sessions[s].View(), index, store.disk.files)
    }

    method NewBlobId() returns (blob: nat)
      modifies this`lastBlob
      ensures lastBlob == old(lastBlob) + 1 == blob
    {
      lastBlob := lastBlob + 1;
      return lastBlob;
    }

    constructor (store: SessionStore)
      ensures Valid() && this.store == store
      ensures View() == World(store.directory, store.quota, store.currentSize, 0, 0, map[], map[], store.disk.files)
    {
      this.store := store;
      lastSession, lastBlob, sessions, index := 0, 0, map[], map[];
    }

    method CreateSession(transaction: Option<nat>) returns (session: BlobSession)
      requires Valid()
      modifies this`lastSession, this`sessions, this`index
      ensures Valid() && fresh(session) && session.Attached() && session.manager == this
      ensures session.id == lastSession == old(lastSession) + 1 && session.transaction == transaction && session.blobs == map[]
      ensures View() == BlobSessions.CreateSession(old(View()), transaction)
    {
      lastSession := lastSession + 1;
      session := new BlobSession(lastSession, transaction, this);
      sessions := sessions[lastSession := session];
      assert View().sessions == old(View()).sessions[lastSession := session.View()];
      if transaction.Some? {
        EmplaceIndex(transaction.value, lastSession);
      }
    }

    /** `emplace`: an index entry that is already there stays. */
    method EmplaceIndex(transaction: nat, id: nat)
      modifies this`index
      ensures index == if transaction in old(index) then old(index) else old(index)[transaction := id]
      ensures View() == old(View()).(index := index)
    {
      if transaction !in index {
        index := index[transaction := id];
      }
    }

    method Dispose(id: nat)
      requires Valid()
      modifies this`sessions, this`index
      ensures Valid()
      ensures View() == EraseSession(old(View()), id)
    {
      if id in sessions {
        var transaction := sessions[id].transaction;
        if transaction.Some? && transaction.value in index {
          index := index - {transaction.value};
        }
        assert transaction.Some? ==> index == old(index) - {transaction.value};
        sessions := sessions - {id};
        assert View().sessions == old(View()).sessions - {id};
      }
    }

    /** `None` stands for the exception of a missing session. */
    method GetSession(id: nat) returns (session: Option<BlobSession>)
      requires Valid()
      ensures session.Some? <==> id in View().sessions
      ensures session.Some? ==> session.value == sessions[id] && session.value.Attached() && session.value.manager == this && session.value.id == id
    {
      if id in sessions { return Some(sessions[id]); }
      return None;
    }

    method GetSessionId(transaction: nat) returns (id: Option<nat>)
      ensures id == SessionIdOf(View(), transaction)
    {
      if transaction in index { return Some(index[transaction]); }
      return None;
    }
  }

  /** The server starts with no session and an empty store, or not at all. */
  method OpenManager(disk: Disk, directory: string, quota: word, status: DirectoryStatus) returns (r: Result<SessionManager, StartError>)
    modifies disk
    ensures r.Success? <==> Objection(status) == None && forall p | p in old(disk.files) && InStore(directory, p) :: p !in status.stuck
    ensures r.Success? ==>
              && fresh(r.value) && r.value.Valid()
              && r.value.View() == World(directory, quota, 0, 0, 0, map[], map[], OutsideFiles(old(disk.files), directory))
  {
    var store := OpenStore(disk, directory, quota, status);
    if store.Failure? {
      return Failure(store.error);
    }
    var manager := new SessionManager(store.value);
    return Success(manager);
  }
}
