/** What holds in every state of every run of the interleaved server. */
module Schedules {
  import opened Wrappers
  import opened Words
  import opened Naming
  import opened Sums
  import opened BlobSessions
  import opened Interleaving
  import opened Threads
  import opened Books
  import opened DiskUse
  import Streaming

  /** Just constructed: no session, nothing in the store directory, every thread between calls. */
  ghost predicate Initial(s: System) {
    && s.w.sessions == map[] && s.w.index == map[] && s.w.usage == 0 && s.w.lastSession == 0 && s.w.lastBlob == 0
    && (forall p | p in s.w.files :: !InStore(s.w.directory, p))
    && (forall t | t in s.threads :: s.threads[t].Idle?)
    && s.leaked == 0 && s.orphans == map[]
  }

  ghost predicate Inv(s: System) {
    Sound(s) && BooksOk(s) && (s.w.quota != 0 ==> DiskOk(s))
  }

  lemma InitialBooks(s: System)
    requires Initial(s)
    ensures BooksOk(s)
  {
    hide Grants, Releases, UploadPath, InStore;
    assert Ledger(s.w.sessions) == map[];
    IdleReleasesNothing(s.threads);
  }

  lemma InitialIsSound(s: System)
    requires Initial(s)
    ensures Inv(s)
  {
    InitialBooks(s);
    hide UploadPath, InStore, BooksOk, Accounts;
    assert Sound(s) by { hide DiskOk; }
    assert DiskOk(s) by { hide Sound; }
  }

  lemma StepKeepsInv(s: System, t: nat, a: Action)
    requires Inv(s) && Enabled(s, t, a)
    ensures Runnable(s.w, s.threads[t]) && Inv(Step(s, t, a)) && Step(s, t, a).w.quota == s.w.quota
  {
    hide Sound, BooksOk, DiskOk;
    assert WithinQuota(s.w) by { InvBounds(s); }
    StepKeepsThreads(s, t, a);
    StepKeepsBooks(s, t, a);
    if s.w.quota != 0 {
      StepKeepsDisk(s, t, a);
    }
  }

  lemma InvBounds(s: System)
    requires Inv(s)
    ensures WithinQuota(s.w)
  {
    hide Sound, DiskOk;
  }

  // ----- Runs -----

  /** A run takes enabled steps only. That they are runnable is no restriction: in a sound state every enabled step is. */
  ghost predicate IsRun(s: System, schedule: seq<(nat, Action)>)
    decreases |schedule|, 0
  {
    schedule != [] ==>
      var front, last := schedule[..|schedule| - 1], schedule[|schedule| - 1];
      IsRun(s, front) && Enabled(After(s, front), last.0, last.1) && Runnable(After(s, front).w, After(s, front).threads[last.0])
  }

  ghost function After(s: System, schedule: seq<(nat, Action)>): System
    requires IsRun(s, schedule)
    decreases |schedule|, 1
  {
    if schedule == [] then s
    else
      var last := schedule[|schedule| - 1];
      Step(After(s, schedule[..|schedule| - 1]), last.0, last.1)
  }

  /** The invariant holds in every state of every run that begins in a sound one; the quota stays. */
  lemma {:induction false} RunKeepsInv(s: System, schedule: seq<(nat, Action)>)
    requires IsRun(s, schedule) && Inv(s)
    ensures Inv(After(s, schedule)) && After(s, schedule).w.quota == s.w.quota
    decreases |schedule|
  {
    hide Inv, Step, Enabled, Runnable;
    if schedule == [] {
    } else {
      var front, last := schedule[..|schedule| - 1], schedule[|schedule| - 1];
      RunKeepsInv(s, front);
      StepKeepsInv(After(s, front), last.0, last.1);
    }
  }

  /** In particular if it begins with the server just constructed. */
  lemma RunIsSound(s: System, schedule: seq<(nat, Action)>)
    requires Initial(s) && IsRun(s, schedule)
    ensures Inv(After(s, schedule)) && After(s, schedule).w.quota == s.w.quota
  {
    hide Inv, Initial, IsRun, After;
    InitialIsSound(s);
    RunKeepsInv(s, schedule);
  }

  /** Some run leads from the one state to the other. */
  ghost predicate Reaches(s: System, r: System) {
    exists schedule :: IsRun(s, schedule) && After(s, schedule) == r
  }

  lemma ReachNext(s: System, r: System, t: nat, a: Action)
    requires Enabled(r, t, a) && Reaches(s, r) && Inv(s)
    ensures Inv(r) && Runnable(r.w, r.threads[t]) && Reaches(s, Step(r, t, a))
  {
    hide Inv, Enabled, Step, Runnable;
    var schedule :| IsRun(s, schedule) && After(s, schedule) == r;
    var longer := schedule + [(t, a)];
    assert longer[..|longer| - 1] == schedule;
    RunKeepsInv(s, schedule);
    StepKeepsInv(r, t, a);
    assert IsRun(s, longer) && After(s, longer) == Step(r, t, a);
  }

  // ----- The counter -----

  /**
   In every state of every run under a quota, the counter is exactly the charges of all entries, plus what has
   been granted and not yet charged, minus what has been released and not yet erased, plus what was lost to ids
   and sessions that were gone; and it is within the quota. Without a quota it stays at zero.
   */
  lemma CounterIsExact(s: System, schedule: seq<(nat, Action)>)
    requires Initial(s) && IsRun(s, schedule)
    ensures var r := After(s, schedule);
            && (r.w.quota == 0 ==> r.w.usage == 0)
            && (r.w.quota != 0 ==>
                  && r.w.usage <= r.w.quota
                  && r.w.usage == Sum(Ledger(r.w.sessions)) + Sum(Grants(r.threads)) - Sum(Releases(r.threads)) + r.leaked + Sum(r.orphans))
  {
    hide Initial, IsRun, After, Sound, DiskOk, Ledger, Grants, Releases;
    var r := After(s, schedule);
    RunIsSound(s, schedule);
    AccountsSplit(r);
  }

  lemma AccountsSplit(s: System)
    requires OrphansDead(s)
    ensures Sum(Accounts(s)) == Sum(Ledger(s.w.sessions)) + Sum(s.orphans)
  {
    hide Ledger;
    forall k | k in s.orphans ensures k !in Ledger(s.w.sessions) {
      LedgerAt(s.w.sessions, k.0, k.1);
    }
    SumSplit(Accounts(s), s.orphans.Keys);
    assert Accounts(s) - s.orphans.Keys == Ledger(s.w.sessions);
    assert (map k | k in Accounts(s) && k in s.orphans.Keys :: Accounts(s)[k]) == s.orphans;
  }

  /** What the thread is about to subtract from the counter. */
  function AboutToRelease(w: World, pc: Pc): nat {
    if pc.Releasing? && Runnable(w, pc) then w.sessions[pc.session].blobs[pc.blobs[0]].charge else 0
  }

  /** No `fetch_sub` ever takes away more than the counter holds. */
  lemma ReleaseNeverUnderflows(s: System, t: nat)
    requires Inv(s) && s.w.quota != 0 && t in s.threads
    ensures AboutToRelease(s.w, s.threads[t]) <= s.w.usage
    ensures Sub64(s.w.usage, AboutToRelease(s.w, s.threads[t])) == s.w.usage - AboutToRelease(s.w, s.threads[t])
  {
    hide Sound, BooksOk, DiskOk;
    var pc := s.threads[t];
    if pc.Releasing? && Runnable(s.w, pc) {
      ChargeFits(s, t, pc.session, pc.blobs[0]);
    }
  }

  /**
   Bytes in the store directory never outrun the accounts: at every step they are at most the counter and the
   releases under way; when every thread is between calls they are at most the counter.
   */
  lemma DiskNeverOutruns(s: System, schedule: seq<(nat, Action)>)
    requires Initial(s) && s.w.quota != 0 && IsRun(s, schedule)
    ensures var r := After(s, schedule);
            && StoreBytes(r.w) <= r.w.usage + Sum(Releases(r.threads))
            && ((forall t | t in r.threads :: r.threads[t].Idle?) ==> StoreBytes(r.w) <= r.w.usage <= s.w.quota)
  {
    hide Initial, IsRun, After, Sound, BooksOk, DiskOk, Releases, StoreBytes;
    var r := After(s, schedule);
    RunIsSound(s, schedule);
    DiskWithinAccounts(r);
    if forall t | t in r.threads :: r.threads[t].Idle? {
      IdleReleasesNothing(r.threads);
    }
  }

  lemma IdleReleasesNothing(threads: map<nat, Pc>)
    requires forall t | t in threads :: threads[t].Idle?
    ensures Sum(Releases(threads)) == 0 && Sum(Grants(threads)) == 0
  {
    SumOfZeros(Releases(threads));
    SumOfZeros(Grants(threads));
  }

  lemma NoSessionsNoCharges(sessions: map<nat, Session>)
    requires sessions == map[]
    ensures Sum(Ledger(sessions)) == 0
  {
    SumOfZeros(Ledger(sessions));
  }

  // ----- Identity -----

  /**
   In every state of every run, no blob id occurs in two sessions, none is beyond the counter, none that a
   thread has drawn and not inserted is in use, and no two threads draw the same; sessions therefore never find
   each other's blobs.
   */
  lemma BlobIdsAreFresh(s: System, schedule: seq<(nat, Action)>)
    requires Initial(s) && IsRun(s, schedule)
    ensures var r := After(s, schedule);
            && FreshIds(r.w) && DrawnOnce(r.threads)
            && (forall t | t in r.threads && (r.threads[t].Inserting? || r.threads[t].Registering?) :: Unborn(r.w, r.threads[t].blob))
            && (forall a: nat, c: nat, b: nat | Live(r.w, a, b) && a != c :: Find(r.w, c, b) == None)
  {
    hide Initial, IsRun, After, BooksOk, DiskOk;
    var r := After(s, schedule);
    RunIsSound(s, schedule);
    forall t | t in r.threads && (r.threads[t].Inserting? || r.threads[t].Registering?) ensures Unborn(r.w, r.threads[t].blob) {
      assert PcOk(r.w, r.threads[t]);
    }
    forall a: nat, c: nat, b: nat | Live(r.w, a, b) && a != c ensures Find(r.w, c, b) == None {
      assert !Live(r.w, c, b);
    }
  }

  /**
   A Get by transaction is never turned away for a session without or with another transaction, even when the
   session is disposed between the two lookups: it goes on if the session is still there, and fails if it is not.
   */
  lemma TransactionGetIsNeverDenied(s: System, schedule: seq<(nat, Action)>)
    requires Initial(s) && IsRun(s, schedule)
    ensures var r := After(s, schedule);
            forall t | t in r.threads ::
              && !r.threads[t].Denied?
              && (r.threads[t].Looked? ==>
                    && Streaming.Admit(r.w, r.threads[t].found, r.threads[t].transaction) in {Streaming.Ok, Streaming.Internal}
                    && Other(r, t, r.threads[t]).threads[t] == if r.threads[t].found in r.w.sessions then Admitted else Idle)
  {
    hide Initial, IsRun, After, BooksOk, DiskOk, Structure;
    var r := After(s, schedule);
    RunIsSound(s, schedule);
    forall t | t in r.threads
      ensures !r.threads[t].Denied?
      ensures r.threads[t].Looked? ==>
                && Streaming.Admit(r.w, r.threads[t].found, r.threads[t].transaction) in {Streaming.Ok, Streaming.Internal}
                && Other(r, t, r.threads[t]).threads[t] == if r.threads[t].found in r.w.sessions then Admitted else Idle
    {
      assert PcOk(r.w, r.threads[t]);
    }
  }
}
