/**
 The quota accounts at the granularity of single steps: the counter, what threads have been granted and not yet
 charged, what they have released and not yet erased, and what was lost.
 */
module Books {
  import opened Wrappers
  import opened Words
  import opened Naming
  import opened Sums
  import opened BlobSessions
  import opened Interleaving
  import opened Threads
  import Loop = ReserveLoop

  ghost function Grants(threads: map<nat, Pc>): map<nat, nat> {
    map t | t in threads :: threads[t].Grant()
  }

  ghost function Releases(threads: map<nat, Pc>): map<nat, nat> {
    map t | t in threads :: threads[t].Released()
  }

  /** Charges of live entries, and of those that went down with their session. */
  ghost function Accounts(s: System): map<(nat, nat), nat> {
    Ledger(s.w.sessions) + s.orphans
  }

  /** Orphaned entries belong to sessions that are gone for good. */
  ghost predicate OrphansDead(s: System) {
    forall k | k in s.orphans :: k.0 !in s.w.sessions && k.0 <= s.w.lastSession
  }

  /** The counter, exactly. */
  ghost predicate Balanced(s: System) {
    if s.w.quota == 0 then s.w.usage == 0 && s.leaked == 0
    else s.w.usage + Sum(Releases(s.threads)) == Sum(Accounts(s)) + Sum(Grants(s.threads)) + s.leaked
  }

  ghost predicate BooksOk(s: System) {
    WithinQuota(s.w) && OrphansDead(s) && Balanced(s)
  }

  lemma ThreadSums(threads: map<nat, Pc>, t: nat, pc: Pc)
    requires t in threads
    ensures Sum(Grants(threads[t := pc])) + threads[t].Grant() == Sum(Grants(threads)) + pc.Grant()
    ensures Sum(Releases(threads[t := pc])) + threads[t].Released() == Sum(Releases(threads)) + pc.Released()
  {
    hide Pc.Grant, Pc.Released;
    SumPut(Grants(threads), t, pc.Grant());
    assert Grants(threads[t := pc]) == Grants(threads)[t := pc.Grant()];
    SumPut(Releases(threads), t, pc.Released());
    assert Releases(threads[t := pc]) == Releases(threads)[t := pc.Released()];
  }

  // ----- Changes of the accounts -----

  /** Putting an entry of a live session into the accounts. */
  lemma AccountsPut(s: System, id: nat, blob: nat, e: Entry)
    requires OrphansDead(s) && id in s.w.sessions
    ensures var after := s.(w := WithBlobs(s.w, id, s.w.sessions[id].blobs[blob := e]));
            Sum(Accounts(after)) + (if blob in s.w.sessions[id].blobs then s.w.sessions[id].blobs[blob].charge else 0)
            == Sum(Accounts(s)) + e.charge
  {
    hide Ledger;
    var after := s.(w := WithBlobs(s.w, id, s.w.sessions[id].blobs[blob := e]));
    LedgerPut(s.w, id, blob, e);
    LedgerAt(s.w.sessions, id, blob);
    assert (id, blob) !in s.orphans;
    assert Accounts(after) == Accounts(s)[(id, blob) := e.charge];
    SumPut(Accounts(s), (id, blob), e.charge);
  }

  lemma AccountsWithout(s: System, id: nat, blob: nat)
    requires OrphansDead(s) && id in s.w.sessions && blob in s.w.sessions[id].blobs
    ensures Accounts(s.(w := EraseEntry(s.w, id, blob))) == Accounts(s) - {(id, blob)}
    ensures (id, blob) in Accounts(s) && Accounts(s)[(id, blob)] == s.w.sessions[id].blobs[blob].charge
  {
    hide Ledger;
    LedgerErase(s.w, id, blob);
    LedgerAt(s.w.sessions, id, blob);
    assert (id, blob) !in s.orphans;
  }

  lemma AccountsErase(s: System, id: nat, blob: nat)
    requires OrphansDead(s) && id in s.w.sessions && blob in s.w.sessions[id].blobs
    ensures Sum(Accounts(s.(w := EraseEntry(s.w, id, blob)))) + s.w.sessions[id].blobs[blob].charge == Sum(Accounts(s))
  {
    hide Accounts;
    AccountsWithout(s, id, blob);
    SumRemove(Accounts(s), (id, blob));
  }

  /** The entries of a destroyed session stay in the accounts, as orphans. */
  lemma AccountsOfErasedSession(s: System, id: nat)
    requires OrphansDead(s) && id in s.w.sessions
    ensures Accounts(s.(w := EraseSession(s.w, id), orphans := s.orphans + Remains(s.w, id))) == Accounts(s)
  {
    hide Ledger;
    var after := s.(w := EraseSession(s.w, id), orphans := s.orphans + Remains(s.w, id));
    forall a: nat, b: nat ensures SameAt(Accounts(after), Accounts(s), a, b) {
      LedgerAt(s.w.sessions, a, b);
      LedgerAt(after.w.sessions, a, b);
    }
    SameLedgers(Accounts(after), Accounts(s));
  }

  lemma AccountsOfNewSession(s: System, transaction: Option<nat>)
    requires s.w.lastSession + 1 !in s.w.sessions
    ensures Accounts(s.(w := CreateSession(s.w, transaction))) == Accounts(s)
  {
    hide Ledger;
    LedgerOfNewSession(s.w.sessions, s.w.lastSession + 1, transaction);
  }

  // ----- What is there to be released -----

  ghost function Target(pc: Pc): (nat, nat) {
    if pc.Deletes() && pc.blobs != [] then (pc.session, pc.blobs[0]) else (0, 0)
  }

  /** Releases under way concern entries of different sessions, so all of them are part of the accounts. */
  lemma ReleasesAreCovered(s: System, t: nat, id: nat, blob: nat)
    requires Sound(s) && OrphansDead(s) && s.w.quota != 0
    requires t in s.threads && s.threads[t].Lock() == Some(id) && s.threads[t].Released() == 0
    requires id in s.w.sessions && blob in s.w.sessions[id].blobs
    ensures s.w.sessions[id].blobs[blob].charge + Sum(Releases(s.threads)) <= Sum(Accounts(s))
  {
    hide Ledger, Accounts, Structure, DrawnOnce, PcOk, OrphansDead;
    var charge := s.w.sessions[id].blobs[blob].charge;
    var f := Releases(s.threads)[t := charge];
    var h: map<nat, (nat, nat)> := map u | u in s.threads :: if u == t then (id, blob) else Target(s.threads[u]);
    SumPut(Releases(s.threads), t, charge);
    ChargeIsInAccounts(s, id, blob);
    forall u | u in f && f[u] > 0 ensures u in h && h[u] in Accounts(s) && f[u] <= Accounts(s)[h[u]]
                                       && s.threads[u].Lock() == Some(h[u].0)
    {
      if u != t {
        ReleaseIsInAccounts(s, u);
      }
    }
    SumInjection(f, Accounts(s), h);
  }

  lemma ChargeIsInAccounts(s: System, id: nat, blob: nat)
    requires OrphansDead(s) && id in s.w.sessions && blob in s.w.sessions[id].blobs
    ensures (id, blob) in Accounts(s) && Accounts(s)[(id, blob)] == s.w.sessions[id].blobs[blob].charge
  {
    LedgerAt(s.w.sessions, id, blob);
    hide Ledger;
    assert (id, blob) !in s.orphans;
  }

  /** A thread that has released something has it in the accounts, and holds the mutex of its session. */
  lemma ReleaseIsInAccounts(s: System, u: nat)
    requires u in s.threads && PcOk(s.w, s.threads[u]) && OrphansDead(s) && s.w.quota != 0 && s.threads[u].Released() > 0
    ensures var k := Target(s.threads[u]);
            k in Accounts(s) && Accounts(s)[k] == s.threads[u].Released() && s.threads[u].Lock() == Some(k.0)
  {
    hide Accounts, OrphansDead, Unborn, UploadPath, InStore;
    ChargeIsInAccounts(s, s.threads[u].session, s.threads[u].blobs[0]);
  }

  // ----- Steps -----

  lemma SameAccounts(s: System, after: System)
    requires after.w.sessions == s.w.sessions && after.orphans == s.orphans
    ensures Accounts(after) == Accounts(s)
  {
    hide Ledger;
  }

  /** The books stay balanced if what one thread does to the counter, the accounts and its own dues adds up. */
  lemma DuesAddUp(s: System, t: nat, after: System, pc: Pc)
    requires BooksOk(s) && t in s.threads && after.threads == s.threads[t := pc] && after.w.quota == s.w.quota
    requires WithinQuota(after.w) && OrphansDead(after)
    requires s.w.quota == 0 ==> after.w.usage == 0 && after.leaked == 0
    requires s.w.quota != 0 ==>
               after.w.usage - s.w.usage + pc.Released() - s.threads[t].Released()
               == Sum(Accounts(after)) - Sum(Accounts(s)) + pc.Grant() - s.threads[t].Grant() + after.leaked - s.leaked
    ensures BooksOk(after)
  {
    hide Ledger, Accounts, Pc.Grant, Pc.Released, Grants, Releases, OrphansDead;
    ThreadSums(s.threads, t, pc);
  }

  /** A step that moves no bytes. */
  lemma NothingMoves(s: System, t: nat, pc: Pc, w: World)
    requires BooksOk(s) && t in s.threads
    requires pc.Grant() == s.threads[t].Grant() && pc.Released() == s.threads[t].Released()
    requires w.quota == s.w.quota && w.usage == s.w.usage && w.lastSession == s.w.lastSession && w.sessions == s.w.sessions
    ensures BooksOk(System(w, s.threads[t := pc], s.leaked, s.orphans))
  {
    hide Ledger, Accounts, Pc.Grant, Pc.Released, Grants, Releases;
    var after := System(w, s.threads[t := pc], s.leaked, s.orphans);
    SameAccounts(s, after);
    DuesAddUp(s, t, after, pc);
  }

  /** A step of the reserve loop: the counter moves exactly when the grant is made. */
  lemma LoopKeepsBooks(s: System, t: nat, pc: Pc)
    requires BooksOk(s) && t in s.threads && s.threads[t] == pc && PcOk(s.w, pc) && pc.Reserving? && !Loop.Finished(pc.phase)
    ensures BooksOk(Upload(s, t, pc))
  {
    hide Ledger, Accounts, Grants, Releases, Unborn, UploadPath, InStore;
    var after := Upload(s, t, pc);
    SameAccounts(s, after);
    assert s.w.quota != 0 ==> after.w.usage == s.w.usage + after.threads[t].Grant();
    DuesAddUp(s, t, after, after.threads[t]);
  }

  lemma ChargeFits(s: System, t: nat, id: nat, b: nat)
    requires Sound(s) && BooksOk(s) && s.w.quota != 0 && t in s.threads
    requires s.threads[t].Lock() == Some(id) && s.threads[t].Released() == 0
    requires id in s.w.sessions && b in s.w.sessions[id].blobs
    ensures s.w.sessions[id].blobs[b].charge + s.threads[t].Grant() <= s.w.usage
  {
    hide Ledger, Accounts, Pc.Grant, Pc.Released, Sound;
    ReleasesAreCovered(s, t, id, b);
    SumRemove(Grants(s.threads), t);
  }

  /** The grant becomes a charge; the entry's own sum cannot wrap. */
  lemma ChargingKeepsBooks(s: System, t: nat, pc: Pc)
    requires Sound(s) && BooksOk(s) && t in s.threads && s.threads[t] == pc && Runnable(s.w, pc)
    requires pc.Reserving? && pc.phase.Granted? && pc.blob in s.w.sessions[pc.session].blobs
    ensures BooksOk(Upload(s, t, pc))
  {
    hide Ledger, Accounts, Grants, Releases, Sound, PcOk;
    var id, b := pc.session, pc.blob;
    if s.w.quota != 0 {
      ChargeFits(s, t, id, b);
    }
    var e := s.w.sessions[id].blobs[b];
    var charged := e.(charge := Add64(e.charge, |pc.data|));
    var after := Upload(s, t, pc);
    AccountsPut(s, id, b, charged);
    SameAccounts(s.(w := WithBlobs(s.w, id, s.w.sessions[id].blobs[b := charged])), after);
    DuesAddUp(s, t, after, Writing(id, b, pc.data));
  }

  /** The grant of an id that is gone is lost, and booked as such. */
  lemma LosingKeepsBooks(s: System, t: nat, pc: Pc)
    requires BooksOk(s) && t in s.threads && s.threads[t] == pc && pc.Reserving? && pc.phase.Granted?
    ensures BooksOk(Goto(s, t, Idle).(leaked := if s.w.quota == 0 then 0 else s.leaked + |pc.data|))
  {
    hide Ledger, Accounts, Grants, Releases;
    var after := Goto(s, t, Idle).(leaked := if s.w.quota == 0 then 0 else s.leaked + |pc.data|);
    SameAccounts(s, after);
    DuesAddUp(s, t, after, Idle);
  }

  lemma InsertingKeepsBooks(s: System, t: nat, pc: Pc, path: string, next: Pc)
    requires BooksOk(s) && t in s.threads && s.threads[t] == pc && PcOk(s.w, pc)
    requires pc.Inserting? || pc.Registering?
    requires next.Idle? || next.Opening?
    ensures BooksOk(Goto(s, t, next).(w := InsertEntry(s.w, pc.session, pc.blob, path)))
  {
    hide Ledger, Accounts, Grants, Releases;
    var id, b := pc.session, pc.blob;
    assert !Live(s.w, id, b);
    hide PcOk;
    var after := Goto(s, t, next).(w := InsertEntry(s.w, id, b, path));
    AccountsPut(s, id, b, Entry(path, 0));
    SameAccounts(s.(w := WithBlobs(s.w, id, s.w.sessions[id].blobs[b := Entry(path, 0)])), after);
    DuesAddUp(s, t, after, next);
  }

  /** The counter never goes below what is released. */
  lemma ReleasingKeepsBooks(s: System, t: nat, pc: Pc)
    requires Sound(s) && BooksOk(s) && t in s.threads && s.threads[t] == pc && Runnable(s.w, pc) && pc.Releasing?
    ensures BooksOk(Delete(s, t, pc))
  {
    hide Ledger, Accounts, Grants, Releases, Sound, PcOk;
    if s.w.quota != 0 {
      ChargeFits(s, t, pc.session, pc.blobs[0]);
    }
    var after := Delete(s, t, pc);
    SameAccounts(s, after);
    DuesAddUp(s, t, after, after.threads[t]);
  }

  lemma ErasingKeepsBooks(s: System, t: nat, pc: Pc)
    requires BooksOk(s) && t in s.threads && s.threads[t] == pc && PcOk(s.w, pc) && pc.Erasing?
    ensures BooksOk(Delete(s, t, pc))
  {
    hide Ledger, Accounts, Grants, Releases, Unborn, UploadPath, InStore;
    var after := Delete(s, t, pc);
    AccountsErase(s, pc.session, pc.blobs[0]);
    SameAccounts(s.(w := EraseEntry(s.w, pc.session, pc.blobs[0])), after);
    DuesAddUp(s, t, after, after.threads[t]);
  }

  lemma ErasingSessionKeepsBooks(s: System, t: nat, pc: Pc)
    requires BooksOk(s) && t in s.threads && s.threads[t] == pc && Runnable(s.w, pc)
    requires pc.Removing? && pc.blobs == [] && pc.disposing && pc.session <= s.w.lastSession
    ensures BooksOk(Delete(s, t, pc))
  {
    hide Ledger, Accounts, Grants, Releases, EraseSession, Remains;
    var after := Delete(s, t, pc);
    AccountsOfErasedSession(s, pc.session);
    SameAccounts(s.(w := EraseSession(s.w, pc.session), orphans := s.orphans + Remains(s.w, pc.session)), after);
    ErasedSessionIsGone(s.w, pc.session);
    DuesAddUp(s, t, after, Idle);
  }

  lemma ErasedSessionIsGone(w: World, id: nat)
    requires id in w.sessions
    ensures var after := EraseSession(w, id);
            && after.sessions == w.sessions - {id} && after.lastSession == w.lastSession
            && after.quota == w.quota && after.usage == w.usage
    ensures forall k | k in Remains(w, id) :: k.0 == id
  {
  }

  lemma OpenSessionKeepsBooks(s: System, t: nat, transaction: Option<nat>)
    requires BooksOk(s) && t in s.threads && s.w.lastSession + 1 !in s.w.sessions
    ensures BooksOk(s.(w := CreateSession(s.w, transaction)))
  {
    hide Ledger, Accounts, Grants, Releases;
    var after := s.(w := CreateSession(s.w, transaction));
    assert s.threads[t := s.threads[t]] == s.threads;
    AccountsOfNewSession(s, transaction);
    DuesAddUp(s, t, after, s.threads[t]);
  }

  lemma BeginKeepsBooks(s: System, t: nat, a: Action)
    requires Structure(s.w) && BooksOk(s) && Enabled(s, t, a) && !a.Proceed?
    ensures BooksOk(Begin(s, t, a))
  {
    assert s.w.lastSession + 1 !in s.w.sessions;
    hide Ledger, Accounts, Grants, Releases, BooksOk, Structure;
    if a.OpenSession? {
      OpenSessionKeepsBooks(s, t, a.transaction);
    } else {
      var after := Begin(s, t, a);
      NothingMoves(s, t, after.threads[t], after.w);
      assert s.threads[t := s.threads[t]] == s.threads;
    }
  }

  lemma UploadKeepsBooks(s: System, t: nat, pc: Pc)
    requires Sound(s) && BooksOk(s) && Enabled(s, t, Proceed) && pc == s.threads[t] && PcOk(s.w, pc)
    requires pc.Creating? || pc.Uploads()
    ensures BooksOk(Upload(s, t, pc))
  {
    hide Sound, BooksOk, UploadPath, Unborn, Locked, UsedByOther, Loop.Advance;
    var after := Upload(s, t, pc);
    if pc.Inserting? {
      InsertingKeepsBooks(s, t, pc, UploadPath(s.w.directory, pc.blob), Opening(pc.session, pc.blob));
    } else if pc.Reserving? && !Loop.Finished(pc.phase) {
      LoopKeepsBooks(s, t, pc);
    } else if pc.Reserving? && pc.phase.Granted? {
      if pc.blob in s.w.sessions[pc.session].blobs {
        ChargingKeepsBooks(s, t, pc);
      } else {
        LosingKeepsBooks(s, t, pc);
      }
    } else {
      NothingMoves(s, t, after.threads[t], after.w);
    }
  }

  lemma DeleteKeepsBooks(s: System, t: nat, pc: Pc)
    requires Sound(s) && BooksOk(s) && Enabled(s, t, Proceed) && pc == s.threads[t] && PcOk(s.w, pc)
    requires pc.Removing? || pc.Deletes()
    ensures BooksOk(Delete(s, t, pc))
  {
    hide Sound, BooksOk, PcOk, Delete, Runnable, Locked, UsedByOther;
    SessionInUse(s, pc);
    if pc.Releasing? {
      ReleasingKeepsBooks(s, t, pc);
    } else if pc.Erasing? {
      ErasingKeepsBooks(s, t, pc);
    } else if pc.Removing? && pc.blobs == [] && pc.disposing {
      ErasingSessionKeepsBooks(s, t, pc);
    } else {
      SkippingKeepsBooks(s, t, pc);
    }
  }

  lemma SessionInUse(s: System, pc: Pc)
    requires pc.Uses().Some? && PcOk(s.w, pc) && Sound(s)
    ensures Runnable(s.w, pc) && pc.session <= s.w.lastSession
  {
    hide UploadPath, InStore, Unborn, Exclusive, DrawnOnce, IndexSound, PathsSound;
  }

  /** Steps of a removal that release nothing and erase nothing. */
  lemma SkippingKeepsBooks(s: System, t: nat, pc: Pc)
    requires BooksOk(s) && t in s.threads && pc == s.threads[t] && Runnable(s.w, pc)
    requires pc.Unlinking? || (pc.Removing? && (pc.blobs != [] || !pc.disposing))
    ensures BooksOk(Delete(s, t, pc))
  {
    hide BooksOk, Remains;
    NothingMoves(s, t, Delete(s, t, pc).threads[t], Delete(s, t, pc).w);
  }

  lemma OtherKeepsBooks(s: System, t: nat, pc: Pc)
    requires BooksOk(s) && Enabled(s, t, Proceed) && pc == s.threads[t] && PcOk(s.w, pc)
    requires !pc.Creating? && !pc.Uploads() && !pc.Removing? && !pc.Deletes()
    ensures BooksOk(Other(s, t, pc))
  {
    hide BooksOk, UploadPath, InStore, Unborn, Ledger, Locked, UsedByOther, Streaming.Admit;
    if pc.Registering? && pc.path in s.w.files {
      InsertingKeepsBooks(s, t, pc, pc.canonical, Idle);
    } else {
      NothingMoves(s, t, Other(s, t, pc).threads[t], Other(s, t, pc).w);
    }
  }

  /** Every step of every thread keeps the books. */
  lemma StepKeepsBooks(s: System, t: nat, a: Action)
    requires Sound(s) && BooksOk(s) && Enabled(s, t, a)
    ensures Runnable(s.w, s.threads[t]) && BooksOk(Step(s, t, a))
  {
    var pc := s.threads[t];
    assert PcOk(s.w, pc);
    assert Structure(s.w);
    hide Sound, BooksOk, PcOk, Structure;
    if !a.Proceed? {
      BeginKeepsBooks(s, t, a);
    } else if pc.Creating? || pc.Uploads() {
      UploadKeepsBooks(s, t, pc);
    } else if pc.Removing? || pc.Deletes() {
      DeleteKeepsBooks(s, t, pc);
    } else {
      OtherKeepsBooks(s, t, pc);
    }
  }
}
