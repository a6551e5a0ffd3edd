/**
 What the transaction index means. Every manager call holds the manager's lock, so any schedule of the server
 is, for the index, a sequence of the events below.
 */
module TransactionIndex {
  import opened Wrappers
  import opened BlobSessions

  datatype Event = Created(session: nat, transaction: Option<nat>) | Disposed(session: nat)

  /** The part of the shared state the manager's lock protects. */
  datatype Registry = Registry(last: nat, live: map<nat, Option<nat>>, index: map<nat, nat>)

  function RegistryOf(w: World): Registry {
    Registry(w.lastSession, map s | s in w.sessions :: w.sessions[s].transaction, w.index)
  }

  const EMPTY: Registry := Registry(0, map[], map[])

  function Create(r: Registry, transaction: Option<nat>): Registry {
    Registry(r.last + 1, r.live[r.last + 1 := transaction],
             if transaction.Some? && transaction.value !in r.index then r.index[transaction.value := r.last + 1] else r.index)
  }

  function Erase(r: Registry, id: nat): Registry {
    if id !in r.live then r
    else Registry(r.last, r.live - {id}, if r.live[id].Some? then r.index - {r.live[id].value} else r.index)
  }

  /** The registry sees session creation and disposal as its own two actions. */
  lemma RegistryFollows(w: World, transaction: Option<nat>, id: nat)
    ensures RegistryOf(CreateSession(w, transaction)) == Create(RegistryOf(w), transaction)
    ensures RegistryOf(EraseSession(w, id)) == Erase(RegistryOf(w), id)
  {
    assert RegistryOf(CreateSession(w, transaction)).live == Create(RegistryOf(w), transaction).live;
    assert RegistryOf(EraseSession(w, id)).live == Erase(RegistryOf(w), id).live;
  }

  // ----- Histories -----

  /** The registry after a history; creations must carry the id the counter gives them. */
  function Replay(history: seq<Event>): Registry
    decreases |history|
  {
    if history == [] then EMPTY
    else
      var before := Replay(history[..|history| - 1]);
      match history[|history| - 1]
      case Created(_, transaction) => Create(before, transaction)
      case Disposed(id) => Erase(before, id)
  }

  predicate Numbered(history: seq<Event>)
    decreases |history|
  {
    history != [] ==>
      var front, last := history[..|history| - 1], history[|history| - 1];
      && Numbered(front)
      && (last.Created? ==> last.session == Replay(front).last + 1)
  }

  predicate CreatesWith(e: Event, t: nat) {
    e.Created? && e.transaction == Some(t)
  }

  /** Event `j` takes effect on transaction `t`: it disposes a session that was live then and carried `t`. */
  predicate EndsTransaction(history: seq<Event>, j: nat, t: nat)
    requires j < |history|
  {
    && history[j].Disposed?
    && var before := Replay(history[..j]);
       history[j].session in before.live && before.live[history[j].session] == Some(t)
  }

  /** Creation `i` carries `t` and nothing has ended `t` since. */
  predicate Standing(history: seq<Event>, i: nat, t: nat)
    requires i < |history|
  {
    CreatesWith(history[i], t) && forall j: nat | i < j < |history| :: !EndsTransaction(history, j, t)
  }

  /** The first of the standing creations. */
  predicate Earliest(history: seq<Event>, i: nat, t: nat)
    requires i < |history|
  {
    Standing(history, i, t) && forall k: nat | k < i :: !Standing(history, k, t)
  }

  /** What the index says about `t` is exactly what the history says. */
  ghost predicate Explains(history: seq<Event>, t: nat) {
    var index := Replay(history).index;
    if t in index then exists i: nat :: i < |history| && Earliest(history, i, t) && history[i].session == index[t]
    else forall i: nat | i < |history| :: !Standing(history, i, t)
  }

  lemma StandingBefore(history: seq<Event>, i: nat, t: nat)
    requires i < |history| - 1
    ensures var front := history[..|history| - 1];
            Standing(history, i, t) <==> Standing(front, i, t) && !EndsTransaction(history, |history| - 1, t)
  {
    var front := history[..|history| - 1];
    forall j: nat | j < |front| ensures EndsTransaction(history, j, t) <==> EndsTransaction(front, j, t) {
      assert history[..j] == front[..j];
    }
  }

  /**
   `get_session_id(t)` returns the earliest session created with `t` since the last effective disposal of any
   session carrying `t`, and throws exactly when there is none.
   */
  lemma {:induction false} IndexIsExplained(history: seq<Event>, t: nat)
    requires Numbered(history)
    ensures Explains(history, t)
    decreases |history|
  {
    if history == [] {
    } else {
      var n := |history| - 1;
      var front := history[..n];
      IndexIsExplained(front, t);
      assert history[..n] == front;
      forall i: nat | i < n ensures Standing(history, i, t) <==> Standing(front, i, t) && !EndsTransaction(history, n, t) {
        StandingBefore(history, i, t);
      }
      var before, after := Replay(front).index, Replay(history).index;
      if t in after {
        if t in before {
          var i: nat :| i < n && Earliest(front, i, t) && front[i].session == before[t];
          assert Earliest(history, i, t);
        } else {
          assert Earliest(history, n, t);
        }
      }
    }
  }

  // ----- When the index is the inverse of the live sessions' transactions -----

  /** Index entries name live sessions that carry the transaction, and ids stay below the counter. */
  ghost predicate Sound(r: Registry) {
    && (forall s | s in r.live :: s <= r.last)
    && (forall t | t in r.index :: r.index[t] in r.live && r.live[r.index[t]] == Some(t))
  }

  lemma {:induction false} ReplayIsSound(history: seq<Event>)
    ensures Sound(Replay(history))
    decreases |history|
  {
    if history == [] {
    } else {
      ReplayIsSound(history[..|history| - 1]);
    }
  }

  /** Every live session with a transaction is the one the index names for it. */
  ghost predicate IsInverse(r: Registry) {
    forall s | s in r.live && r.live[s].Some? :: r.live[s].value in r.index && r.index[r.live[s].value] == s
  }

  /** No live session carries this transaction: what a caller of `create_session` can make sure of. */
  ghost predicate Unshared(r: Registry, transaction: Option<nat>) {
    transaction.Some? ==> forall s | s in r.live :: r.live[s] != transaction
  }

  lemma InverseAfterCreate(r: Registry, transaction: Option<nat>)
    requires Sound(r) && IsInverse(r)
    ensures IsInverse(Create(r, transaction)) <==> Unshared(r, transaction)
  {
    var after := Create(r, transaction);
    if transaction.Some? && !Unshared(r, transaction) {
      assert after.live[after.last] == transaction;
    }
  }

  ghost predicate AlwaysInverse(history: seq<Event>)
    decreases |history|
  {
    IsInverse(Replay(history)) && (history != [] ==> AlwaysInverse(history[..|history| - 1]))
  }

  ghost predicate NeverShares(history: seq<Event>)
    decreases |history|
  {
    history != [] ==>
      var front, last := history[..|history| - 1], history[|history| - 1];
      NeverShares(front) && (last.Created? ==> Unshared(Replay(front), last.transaction))
  }

  /**
   The index is the exact inverse of the live sessions' transactions all along a history if and only if no
   session was ever created with a transaction that a live session carried.
   */
  lemma {:induction false} InverseExactlyWhen(history: seq<Event>)
    ensures AlwaysInverse(history) <==> NeverShares(history)
    decreases |history|
  {
    if history == [] {
    } else {
      var front, last := history[..|history| - 1], history[|history| - 1];
      InverseExactlyWhen(front);
      ReplayIsSound(front);
      if last.Created? && AlwaysInverse(front) {
        InverseAfterCreate(Replay(front), last.transaction);
      }
    }
  }

  /** With sharing, a live session can become unreachable through the index: here session 2, after session 1 is disposed. */
  lemma SharingLosesSession()
    ensures var r := Replay([Created(1, Some(7)), Created(2, Some(7)), Disposed(1)]);
            2 in r.live && r.live[2] == Some(7) && 7 !in r.index
  {
    var one := [Created(1, Some(7))];
    var two := one + [Created(2, Some(7))];
    var three := two + [Disposed(1)];
    assert one[..0] == [] && two[..1] == one && three[..2] == two;
    assert Replay(one) == Create(EMPTY, Some(7));
    assert Replay(two) == Create(Replay(one), Some(7));
    assert Replay(three) == Erase(Replay(two), 1);
    assert three == [Created(1, Some(7)), Created(2, Some(7)), Disposed(1)];
  }
}
