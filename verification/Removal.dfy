/** Removing blobs and disposing sessions without interference. */
module Removal {
  import opened Words
  import opened Sums
  import opened BlobSessions

  function Elements(ids: seq<nat>): set<nat> {
    set b | b in ids
  }

  ghost function Charges(blobs: map<nat, Entry>, chosen: set<nat>): map<nat, nat> {
    map b | b in blobs && b in chosen :: blobs[b].charge
  }

  ghost function Paths(blobs: map<nat, Entry>, chosen: set<nat>): set<string> {
    set b | b in blobs && b in chosen :: blobs[b].path
  }

  /** Removal of a set of ids in one stroke, by definition blind to order and repetition. */
  ghost function RemoveSet(w: World, id: nat, chosen: set<nat>): World
    requires id in w.sessions
  {
    var blobs := w.sessions[id].blobs;
    WithBlobs(w, id, blobs - chosen).(
      usage := if w.quota == 0 then w.usage else Sub64(w.usage, Sum(Charges(blobs, chosen))),
      files := w.files - Paths(blobs, chosen))
  }

  lemma ChargesStep(blobs: map<nat, Entry>, blob: nat, chosen: set<nat>)
    requires blob in blobs
    ensures Sum(Charges(blobs, {blob} + chosen)) == blobs[blob].charge + Sum(Charges(blobs - {blob}, chosen))
    ensures Paths(blobs, {blob} + chosen) == {blobs[blob].path} + Paths(blobs - {blob}, chosen)
    ensures (blobs - {blob}) - chosen == blobs - ({blob} + chosen)
  {
    SumRemove(Charges(blobs, {blob} + chosen), blob);
    assert Charges(blobs - {blob}, chosen) == Charges(blobs, {blob} + chosen) - {blob};
  }

  lemma RemoveSetStep(w: World, id: nat, blob: nat, chosen: set<nat>)
    requires id in w.sessions
    ensures RemoveSet(DeleteBlobFile(w, id, blob), id, chosen) == RemoveSet(w, id, {blob} + chosen)
  {
    hide Charges, Paths, Sum;
    var blobs: map<nat, Entry> := w.sessions[id].blobs;
    if blob in blobs {
      ChargesStep(blobs, blob, chosen);
      SubtractTwice(w.usage, blobs[blob].charge, Sum(Charges(blobs - {blob}, chosen)));
      FilesTwice(w.files, blobs[blob].path, Paths(blobs - {blob}, chosen));
    } else {
      UnknownChangesNothing(blobs, blob, chosen);
    }
  }

  lemma UnknownChangesNothing(blobs: map<nat, Entry>, blob: nat, chosen: set<nat>)
    requires blob !in blobs
    ensures Charges(blobs, {blob} + chosen) == Charges(blobs, chosen) && Paths(blobs, {blob} + chosen) == Paths(blobs, chosen)
    ensures blobs - ({blob} + chosen) == blobs - chosen
  {
  }

  lemma FilesTwice(files: map<string, seq<byte>>, path: string, paths: set<string>)
    ensures files - {path} - paths == files - ({path} + paths)
  {
  }

  /** `remove` over any range equals removing the set of its ids once: unknown and repeated ids and the order do not matter. */
  lemma {:induction false} RemoveAllIsRemoveSet(w: World, id: nat, blobs: seq<nat>)
    requires id in w.sessions
    ensures RemoveAll(w, id, blobs) == RemoveSet(w, id, Elements(blobs))
    decreases |blobs|
  {
    var chosen := Elements(blobs);
    if blobs == [] {
      assert Charges(w.sessions[id].blobs, chosen) == map[];
      assert w.sessions[id].blobs - chosen == w.sessions[id].blobs;
      assert Paths(w.sessions[id].blobs, chosen) == {};
    } else {
      var rest := Elements(blobs[1..]);
      RemoveAllIsRemoveSet(DeleteBlobFile(w, id, blobs[0]), id, blobs[1..]);
      RemoveSetStep(w, id, blobs[0], rest);
      assert chosen == {blobs[0]} + rest;
    }
  }

  /** The counter agrees with the charges; without a quota it never moves. */
  ghost predicate Accounted(w: World) {
    if w.quota == 0 then w.usage == 0
    else w.usage == Sum(Ledger(w.sessions)) && w.usage <= w.quota
  }

  /** The charges of some entries of one session are part of the ledger. */
  lemma ChargesWithinLedger(w: World, id: nat, chosen: set<nat>)
    requires id in w.sessions
    ensures Sum(Charges(w.sessions[id].blobs, chosen)) <= Sum(Ledger(w.sessions))
  {
    var part := Charges(w.sessions[id].blobs, chosen);
    var h: map<nat, (nat, nat)> := map b | b in part :: (id, b);
    forall b | b in part ensures h[b] in Ledger(w.sessions) && part[b] <= Ledger(w.sessions)[h[b]] {
      LedgerAt(w.sessions, id, b);
    }
    SumInjection(part, Ledger(w.sessions), h);
  }

  lemma LedgerAfterDelete(w: World, id: nat, blob: nat)
    requires id in w.sessions && blob in w.sessions[id].blobs
    ensures Sum(Ledger(DeleteBlobFile(w, id, blob).sessions)) + w.sessions[id].blobs[blob].charge == Sum(Ledger(w.sessions))
  {
    hide Ledger;
    LedgerAt(w.sessions, id, blob);
    SumRemove(Ledger(w.sessions), (id, blob));
    LedgerErase(w, id, blob);
    assert DeleteBlobFile(w, id, blob).sessions == EraseEntry(w, id, blob).sessions;
  }

  lemma DeleteKeepsAccounted(w: World, id: nat, blob: nat)
    requires id in w.sessions && Accounted(w)
    ensures Accounted(DeleteBlobFile(w, id, blob))
  {
    hide Ledger;
    if blob in w.sessions[id].blobs {
      LedgerAfterDelete(w, id, blob);
    }
  }

  lemma {:induction false} RemoveKeepsAccounted(w: World, id: nat, blobs: seq<nat>)
    requires id in w.sessions && Accounted(w)
    ensures Accounted(RemoveAll(w, id, blobs))
    decreases |blobs|
  {
    if blobs == [] {
    } else {
      DeleteKeepsAccounted(w, id, blobs[0]);
      RemoveKeepsAccounted(DeleteBlobFile(w, id, blobs[0]), id, blobs[1..]);
    }
  }

  lemma LedgerOfEmptySession(sessions: map<nat, Session>, id: nat)
    requires id in sessions && sessions[id].blobs == map[]
    ensures Ledger(sessions - {id}) == Ledger(sessions)
  {
    forall s, b ensures SameAt(Ledger(sessions - {id}), Ledger(sessions), s, b) {
      LedgerAt(sessions - {id}, s, b);
      LedgerAt(sessions, s, b);
    }
    SameLedgers(Ledger(sessions - {id}), Ledger(sessions));
  }

  lemma DisposeEmptiesFirst(w: World, id: nat)
    requires id in w.sessions
    ensures Dispose(w, id) == EraseSession(RemoveSet(w, id, w.sessions[id].blobs.Keys), id)
  {
    var keys: set<nat> := w.sessions[id].blobs.Keys;
    var listed := Ascending(keys);
    AscendingLists(keys);
    RemoveAllIsRemoveSet(w, id, listed);
    assert Elements(listed) == keys;
  }

  /**
   Disposing lowers the counter by exactly the session's charges, deletes exactly its files, drops exactly
   the session, and leaves the accounts balanced.
   */
  lemma DisposeIsExact(w: World, id: nat)
    requires id in w.sessions && Accounted(w)
    ensures var r := Dispose(w, id);
            var blobs := w.sessions[id].blobs;
            && r.sessions == w.sessions - {id}
            && r.usage == (if w.quota == 0 then 0 else w.usage - Sum(Charges(blobs, blobs.Keys)))
            && r.files == w.files - Paths(blobs, blobs.Keys)
            && r.directory == w.directory && r.quota == w.quota
            && r.lastSession == w.lastSession && r.lastBlob == w.lastBlob
            && Accounted(r)
  {
    hide Ledger;
    var keys: set<nat> := w.sessions[id].blobs.Keys;
    var emptied := RemoveSet(w, id, keys);
    DisposeEmptiesFirst(w, id);
    ChargesWithinLedger(w, id, keys);
    assert emptied.sessions[id].blobs == map[];
    assert emptied.sessions - {id} == w.sessions - {id};
    assert Accounted(emptied) by {
      AscendingLists(keys);
      RemoveAllIsRemoveSet(w, id, Ascending(keys));
      assert Elements(Ascending(keys)) == keys;
      RemoveKeepsAccounted(w, id, Ascending(keys));
    }
    LedgerOfEmptySession(emptied.sessions, id);
  }
}
