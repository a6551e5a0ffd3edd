/** A download during which the file is moved away: it announces a byte and sends none. */
module VanishedFile {
  import opened Naming
  import opened BlobSessions
  import opened Streaming
  import opened Downloads
  import opened Interleaving
  import opened Schedules
  import opened Overtaking
  import opened LateUpload
  import opened Lookups

  /** The uploaded byte is there for all lookups but the last. */
  lemma ByteVanishes() returns (schedule: seq<(nat, Action)>, w: World)
    ensures Initial(START) && IsRun(START, schedule) && schedule != []
    ensures var front := schedule[..|schedule| - 1];
            && IsRun(START, front) && After(START, front).w == w
            && w.directory == "store" && 1 in w.sessions && 1 in w.sessions[1].blobs
            && w.sessions[1].blobs[1].path == UploadPath("store", 1)
            && UploadPath("store", 1) in w.files && w.files[UploadPath("store", 1)] == BYTE
    ensures UploadPath("store", 1) !in After(START, schedule).w.files
  {
    hide Initial, Inv, IsRun, After, UploadPath, InStore, Begin;
    StartIsSound();
    var r := UploadEnds();
    w := r.w;
    var front :| IsRun(START, front) && After(START, front) == r;
    var a := MoveAway(UploadPath("store", 1));
    schedule := front + [(0, a)];
    ReachNext(START, r, 0, a);
    OneStepMore(START, front, 0, a);
    MovedAway(r, UploadPath("store", 1));
  }

  lemma OneStepMore(s: System, front: seq<(nat, Action)>, t: nat, a: Action)
    requires IsRun(s, front) && Enabled(After(s, front), t, a) && Runnable(After(s, front).w, After(s, front).threads[t])
    ensures var schedule := front + [(t, a)];
            IsRun(s, schedule) && schedule[..|schedule| - 1] == front && After(s, schedule) == Step(After(s, front), t, a)
  {
    hide Enabled, Runnable, Step;
    assert (front + [(t, a)])[..|front + [(t, a)]| - 1] == front;
  }

  lemma MovedAway(r: System, path: string)
    requires 0 in r.threads && Runnable(r.w, r.threads[0])
    ensures path !in Step(r, 0, MoveAway(path)).w.files
  {
  }

  /** The lookups of one call, all at the end of `front` but for the reading of the bytes. */
  lemma SeenBeforeAndAfter(schedule: seq<(nat, Action)>) returns (at: Sights, points: seq<nat>)
    requires IsRun(START, schedule) && schedule != []
    ensures var front := schedule[..|schedule| - 1];
            && IsRun(START, front) && Seen(START, schedule, at, points)
            && var w := After(START, front).w; at == Sights(w, w, w, w, w, w, After(START, schedule).w)
  {
    hide Enabled, Runnable, Step;
    var n := |schedule|;
    var w, last := After(START, schedule[..n - 1]).w, After(START, schedule).w;
    assert schedule[..n] == schedule;
    at, points := Sights(w, w, w, w, w, w, last), [n - 1, n - 1, n - 1, n - 1, n - 1, n - 1, n];
  }

  /** What such lookups answer. */
  lemma AnnouncedAndNotSent(w: World, last: World, config: Config)
    requires 1 in w.sessions && 1 in w.sessions[1].blobs
    requires var path := w.sessions[1].blobs[1].path; path in w.files && |w.files[path]| == 1 && path !in last.files
    ensures var request := GetRequest(API_VERSION, ForSession(1), Reference(SESSION_STORAGE, 1, WantedTag(w, config, 1, 1)));
            GetAt(Sights(w, w, w, w, w, w, last), config, request) == (Ok, [BlobSize(1)])
  {
    var request := GetRequest(API_VERSION, ForSession(1), Reference(SESSION_STORAGE, 1, WantedTag(w, config, 1, 1)));
    VanishedFileReadsEmpty(Sights(w, w, w, w, w, w, last), config, request, w.sessions[1].blobs[1].path);
  }

  /**
   So with every configuration there are a run, lookups along it and a request such that the reply is OK,
   announces one byte and ends without it.
   */
  lemma DownloadCanComeUpShort(config: Config)
    ensures exists schedule, at, points, request ::
              && Initial(START) && IsRun(START, schedule) && Seen(START, schedule, at, points)
              && GetAt(at, config, request) == (Ok, [BlobSize(1)])
  {
    hide Initial, IsRun, After, Seen, GetAt, UploadPath;
    var schedule, w := ByteVanishes();
    var at, points := SeenBeforeAndAfter(schedule);
    AnnouncedAndNotSent(w, After(START, schedule).w, config);
    var request := GetRequest(API_VERSION, ForSession(1), Reference(SESSION_STORAGE, 1, WantedTag(w, config, 1, 1)));
    assert GetAt(at, config, request) == (Ok, [BlobSize(1)]);
  }
}
