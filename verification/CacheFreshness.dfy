/**
 When overlapping requests leave the cache right: exactly as long as nobody commits a change to an
 order while another thread still carries an older version of it to the cache.
 */
module CacheFreshness {
  import opened Model
  import opened Ledger
  import opened SequentialRuns
  import opened SystemSpec
  import opened SystemTheorems
  import opened SystemAnswers

  /** The thread will put this version into the cache: it has committed it, or GetOrder has read it. */
  predicate Carries(w: Thread, order: Order) {
    && IsActive(order.status)
    && match w
       case Posting(pending) => Put(order) in pending
       case Holding(held) => held == order
       case _ => false
  }

  predicate Owes(w: Thread, id: string) {
    w.Posting? && id in Keys(w.pending)
  }

  /** A cache update for this order is still to come. */
  ghost predicate Owed(s: System, id: string) {
    exists t :: t in s.threads && Owes(s.threads[t], id)
  }

  predicate Rewrites(s: System, t: nat, id: string)
    requires Works(s, t)
  {
    Visible(s, s.threads[t], id) != RowOf(s.db, id)
  }

  /** The commit changes an order of which another thread carries a version. */
  ghost predicate Overlapped(s: System, t: nat)
    requires CanDo(s, t, Commit)
  {
    exists u, order :: u in s.threads && u != t && Carries(s.threads[u], order) && Rewrites(s, t, order.id)
  }

  /** No commit of the run was overlapped. */
  ghost predicate Clean(run: seq<Taken>)
    requires CanRun(run)
    decreases |run|
  {
    |run| == 0 ||
    (var front, last := run[..|run| - 1], run[|run| - 1];
     Clean(front) && (last.step.Commit? ==> !Overlapped(Reached(front), last.t)))
  }

  // The invariant of clean runs.

  /** The versions that a transaction will carry are the rows it has staged, under its locks. */
  ghost predicate StagedFresh(db: Db, held: set<string>, w: Thread) {
    w.Working? ==>
      forall k :: 0 <= k < |w.pending| && w.pending[k].Put? ==>
        && w.pending[k].order.id in held
        && RowOf(ApplyAll(db, w.trail), w.pending[k].order.id) == Some(w.pending[k].order)
  }

  ghost predicate CarriedFresh(db: Db, w: Thread) {
    forall order :: Carries(w, order) ==> RowOf(db, order.id) == Some(order)
  }

  ghost predicate ThreadFresh(db: Db, held: set<string>, w: Thread) {
    StagedFresh(db, held, w) && CarriedFresh(db, w)
  }

  ghost predicate ThreadsFresh(s: System) {
    forall t :: t in s.threads ==> ThreadFresh(s.db, HeldBy(s.locks, t), s.threads[t])
  }

  /** What is in the cache is the row, or is about to be corrected. */
  ghost predicate EntriesFresh(s: System) {
    forall id :: id in s.cache ==> RowOf(s.db, id) == Some(s.cache[id]) || Owed(s, id)
  }

  ghost predicate Fresh(s: System) {
    ThreadsFresh(s) && EntriesFresh(s)
  }

  // Steps that leave the tables and the cache alone.

  lemma {:induction false} ReplaceFresh(s: System, s': System, t: nat)
    requires Fresh(s) && s'.db == s.db && s'.cache == s.cache
    requires forall u :: u in s'.threads && u != t ==> u in s.threads && s'.threads[u] == s.threads[u]
    requires forall u :: u in s.threads && u != t ==> u in s'.threads
    requires forall u :: u != t ==> HeldBy(s'.locks, u) == HeldBy(s.locks, u)
    requires t in s'.threads ==> ThreadFresh(s'.db, HeldBy(s'.locks, t), s'.threads[t])
    requires t in s.threads ==> forall id :: !Owes(s.threads[t], id)
    ensures Fresh(s')
  {
    hide ThreadFresh, Owes;
    forall id | id in s'.cache ensures RowOf(s'.db, id) == Some(s'.cache[id]) || Owed(s', id) {
      if Owed(s, id) {
        var u :| u in s.threads && Owes(s.threads[u], id);
        assert Owes(s'.threads[u], id);
      }
    }
  }

  lemma {:induction false} EnabledChange(db: Db, e: Event)
    requires e.Changed? && Enabled(db, e)
    ensures RowOf(db, e.before.id) == Some(e.before) && e.before.status != Target(e.kind)
    ensures forall id ::
              RowOf(Apply(db, e), id) == if id == e.before.id then Some(After(e.before, e.kind, e.at))
                  else RowOf(db, id)
  {
  }

  lemma {:induction false} StagedMore(db: Db, held: set<string>, w: Thread, e: Event, op: CacheOp)
    requires StagedFresh(db, held, w) && w.Working? && WorkOk(w) && Reads(w.op)
    requires e.Changed? && e.kind == KindOf(w.op) && op == Refresh(e.kind, After(e.before, e.kind, e.at))
    requires e.before.id in held && Enabled(ApplyAll(db, w.trail), e)
    ensures StagedFresh(db, held, w.(trail := w.trail + [e], pending := w.pending + [op]))
  {
    hide AllEnabled, VisitedFront, Apply, Enabled;
    ApplySnoc(db, w.trail, e);
    EnabledChange(ApplyAll(db, w.trail), e);
    hide ApplyAll, Guard;
    forall k | 0 <= k < |w.pending| && w.pending[k].Put? ensures w.pending[k].order.id != e.before.id {
      assert w.pending[k].order.status == Target(e.kind);
    }
  }

  /** Locks of other threads do not change when a thread works, ends or gives up. */
  lemma {:induction false} OthersKeepLocks(locks: map<string, nat>, t: nat)
    ensures forall u :: u != t ==> HeldBy(Unlocked(locks, t), u) == HeldBy(locks, u)
  {
  }

  lemma {:induction false} StagedThreadFresh(db: Db, log: seq<Event>, held: set<string>, w: Thread, loggedAt: Time)
    requires ThreadOk(db, log, held, w) && w.Working? && WorkOk(w) && StagedFresh(db, held, w)
    requires Reads(w.op) && w.todo != [] && w.read.Some?
    requires Guard(w.read.value, KindOf(w.op), StampOf(w.op))
    ensures var row, kind, at := w.read.value, KindOf(w.op), StampOf(w.op);
            ThreadFresh(db, held, w.(todo := w.todo[1..], read := None,
                                     trail := w.trail + [Changed(row, kind, at, loggedAt)],
                                     pending := w.pending + [Refresh(kind, After(row, kind, at))],
                                     results := NextResults(w, StorageSpec.Nothing)))
  {
    hide ApplyAll, AllEnabled, WorkOk;
    var row, kind, at := w.read.value, KindOf(w.op), StampOf(w.op);
    StagedMore(db, held, w, Changed(row, kind, at, loggedAt), Refresh(kind, After(row, kind, at)));
  }

  lemma {:induction false} RefreshedFresh(db: Db, log: seq<Event>, held: set<string>, w: Thread)
    requires ThreadOk(db, log, held, w) && w.Working? && StagedFresh(db, held, w) && w.todo != [] && w.read.Some?
    ensures ThreadFresh(db, held, w.(todo := w.todo[1..], read := None, pending := w.pending + [Put(w.read.value)]))
  {
    hide ApplyAll, AllEnabled;
  }

  lemma {:induction false} ReplaceThreadFresh(s: System, t: nat, w: Thread, locks: map<string, nat>)
    requires Fresh(s) && ThreadFresh(s.db, HeldBy(locks, t), w) && t in s.threads && s.threads[t].Working?
    requires forall u :: u != t ==> HeldBy(locks, u) == HeldBy(s.locks, u)
    ensures Fresh(s.(threads := s.threads[t := w], locks := locks))
  {
    hide Fresh, ThreadFresh;
    ReplaceFresh(s, s.(threads := s.threads[t := w], locks := locks), t);
  }

  lemma {:induction false} DropFresh(s: System, t: nat)
    requires Fresh(s) && t in s.threads && !s.threads[t].Posting?
    ensures Fresh(Drop1(s, t))
  {
    hide Fresh, ThreadFresh;
    OthersKeepLocks(s.locks, t);
    ReplaceFresh(s, Drop1(s, t), t);
  }

  lemma StagedFreshOf(db: Db, held: set<string>, w: Thread)
    requires ThreadFresh(db, held, w)
    ensures StagedFresh(db, held, w)
    ensures w.Working? ==> forall todo, results ::
              ThreadFresh(db, held, w.(todo := todo, read := None, results := results))
  {
  }

  lemma {:induction false} StageFresh(s: System, t: nat, loggedAt: Time)
    requires Fresh(s) && SystemOk(s) && WorksOk(s) && CanDo(s, t, Stage(loggedAt))
    ensures Fresh(Do(s, t, Stage(loggedAt)))
  {
    hide Serial, CacheOk, Safety.PubOk, ApplyAll, AllEnabled, ThreadOk, WorkOk, EntriesFresh, ThreadFresh;
    var w, s', held := s.threads[t], Do(s, t, Stage(loggedAt)), HeldBy(s.locks, t);
    assert ThreadOk(s.db, s.log, held, w) && WorkOk(w) && ThreadFresh(s.db, held, w);
    hide SystemOk, WorksOk, Fresh, Guard, Refresh, NextResults;
    StagedFreshOf(s.db, held, w);
    if Guard(w.read.value, KindOf(w.op), StampOf(w.op)) {
      StagedThreadFresh(s.db, s.log, held, w, loggedAt);
      ReplaceThreadFresh(s, t, s'.threads[t], s.locks);
    } else if w.op.UpdateStatus? {
      RefreshedFresh(s.db, s.log, held, w);
      ReplaceThreadFresh(s, t, s'.threads[t], s.locks);
    } else if w.op.Bulk? {
      ReplaceThreadFresh(s, t, s'.threads[t], s.locks);
    } else {
      DropFresh(s, t);
    }
  }

  lemma {:induction false} InsertFresh(s: System, t: nat, loggedAt: Time)
    requires Fresh(s) && CanDo(s, t, Insert(loggedAt))
    ensures Fresh(Do(s, t, Insert(loggedAt)))
  {
    hide Fresh, ApplyAll;
    var w, order := s.threads[t], s.threads[t].op.order;
    var e := Created(order, w.op.at, loggedAt);
    if order.id in s.db.orders {
      DropFresh(s, t);
    } else {
      ApplyOne(s.db, e);
      TakeLock(s.locks, t, order.id);
      ReplaceThreadFresh(s, t, Do(s, t, Insert(loggedAt)).threads[t], s.locks[order.id := t]);
    }
  }

  lemma {:induction false} DeleteFresh(s: System, t: nat, loggedAt: Time)
    requires Fresh(s) && CanDo(s, t, Step.Delete(loggedAt))
    ensures Fresh(Do(s, t, Step.Delete(loggedAt)))
  {
    hide Fresh, ApplyAll;
    var id, s' := s.threads[t].op.id, Do(s, t, Step.Delete(loggedAt));
    if id in s.db.orders {
      TakeLock(s.locks, t, id);
    }
    ReplaceThreadFresh(s, t, s'.threads[t], s'.locks);
  }

  lemma {:induction false} LockedReadFresh(s: System, t: nat)
    requires Fresh(s) && CanDo(s, t, LockedRead)
    ensures Fresh(Do(s, t, LockedRead))
  {
    var w := s.threads[t];
    var id := w.todo[0];
    assert ThreadFresh(s.db, HeldBy(s.locks, t), w);
    hide Fresh, ApplyAll;
    if Visible(s, w, id).Some? {
      TakeLock(s.locks, t, id);
      ReplaceThreadFresh(s, t, w.(read := Visible(s, w, id)), s.locks[id := t]);
    } else if w.op.Bulk? {
      ReplaceThreadFresh(s, t, Do(s, t, LockedRead).threads[t], s.locks);
    } else {
      DropFresh(s, t);
    }
  }

  lemma {:induction false} ReadRowFresh(s: System, t: nat)
    requires Fresh(s) && SystemOk(s) && CanDo(s, t, ReadRow)
    ensures Fresh(Do(s, t, ReadRow))
  {
    hide Fresh, Serial, CacheOk, ThreadsOk, Safety.PubOk;
    SerialKeyed(s.db, s.log);
    ReplaceFresh(s, Do(s, t, ReadRow), t);
  }

  lemma {:induction false} QuietFresh(s: System, t: nat, step: Step)
    requires Fresh(s) && CanDo(s, t, step) && (step.Begin? || step.Abort? || step.Done? || step.Miss?)
    ensures Fresh(Do(s, t, step))
  {
    var s' := Do(s, t, step);
    hide Fresh, ApplyAll;
    OthersKeepLocks(s.locks, t);
    ReplaceFresh(s, s', t);
  }

  // Cache updates.

  lemma {:induction false} TellFresh(s: System, s': System, t: nat, op: CacheOp)
    requires Fresh(s) && t in s.threads && s'.db == s.db && s'.cache == Tell(s.cache, op) && s'.locks == s.locks
    requires forall u :: u in s.threads && u != t ==> u in s'.threads && s'.threads[u] == s.threads[u]
    requires forall u :: u in s'.threads && u != t ==> u in s.threads
    requires t in s'.threads ==> ThreadFresh(s.db, HeldBy(s.locks, t), s'.threads[t])
    requires op.Put? && IsActive(op.order.status) ==> RowOf(s.db, op.order.id) == Some(op.order)
    requires forall id :: id != KeyOf(op) && Owes(s.threads[t], id) ==> t in s'.threads && Owes(s'.threads[t], id)
    ensures Fresh(s')
  {
    hide ThreadFresh, Owes;
    forall id | id in s'.cache ensures RowOf(s'.db, id) == Some(s'.cache[id]) || Owed(s', id) {
      if id != KeyOf(op) {
        assert id in s.cache && s'.cache[id] == s.cache[id];
        if Owed(s, id) {
          var u :| u in s.threads && Owes(s.threads[u], id);
          assert Owes(s'.threads[u], id);
        }
      }
    }
  }

  lemma {:induction false} RestKeys(pending: seq<CacheOp>, k: nat)
    requires k < |pending|
    ensures forall id :: id in Keys(pending) && id != KeyOf(pending[k]) ==> id in Keys(pending[..k] + pending[k + 1..])
    ensures forall op :: op in pending[..k] + pending[k + 1..] ==> op in pending
  {
    var rest := pending[..k] + pending[k + 1..];
    forall id | id in Keys(pending) && id != KeyOf(pending[k]) ensures id in Keys(rest) {
      var j :| 0 <= j < |pending| && KeyOf(pending[j]) == id;
      assert rest[if j < k then j else j - 1] == pending[j];
    }
  }

  lemma {:induction false} UpdateFresh(s: System, t: nat, step: Step)
    requires Fresh(s) && CanDo(s, t, step) && (step.UpdateCache? || step.Fill?)
    ensures Fresh(Do(s, t, step))
  {
    var w, s' := s.threads[t], Do(s, t, step);
    assert ThreadFresh(s.db, HeldBy(s.locks, t), w);
    hide Fresh, Tell, ApplyAll;
    match step
    case UpdateCache(k) =>
      RestKeys(w.pending, k);
      hide Keys;
      if w.pending[k].Put? && IsActive(w.pending[k].order.status) {
        assert Carries(w, w.pending[k].order);
      }
      forall order | Carries(s'.threads[t], order) ensures RowOf(s.db, order.id) == Some(order) {
        assert Carries(w, order);
      }
      TellFresh(s, s', t, w.pending[k]);
    case Fill =>
      assert IsActive(w.order.status) ==> Carries(w, w.order);
      TellFresh(s, s', t, Put(w.order));
  }

  // Commit.

  /** Every change that a transaction has staged comes with a cache update for its order. */
  lemma {:induction false} KeyForEvent(w: Thread, i: nat)
    requires w.Working? && Collected(w) && i < |w.trail|
    ensures IdOf(w.trail[i]) in Keys(w.pending)
  {
    hide Uniform;
    if !Reads(w.op) {
      assert KeyOf(w.pending[0]) == IdOf(w.trail[i]);
    }
  }

  lemma {:induction false} KeysChanged(db: Db, w: Thread, id: string)
    requires w.Working? && WorkOk(w) && RowOf(ApplyAll(db, w.trail), id) != RowOf(db, id)
    ensures id in Keys(w.pending)
  {
    hide Collected, VisitedFront, ApplyAll, Keys, IdOf, Harmless;
    if i: nat :| i < |w.trail| && IdOf(w.trail[i]) == id {
      KeyForEvent(w, i);
    } else {
      Untouched(db, w.trail, id);
      assert false;
    }
  }

  /** Another transaction's staged versions stay right, because they are under its locks. */
  lemma {:induction false} CommitKeepsStaged(s: System, t: nat, u: nat)
    requires Fresh(s) && SystemOk(s) && CanDo(s, t, Commit) && u != t && u in s.threads && s.threads[u].Working?
    ensures StagedFresh(Do(s, t, Commit).db, HeldBy(s.locks, u), s.threads[u])
  {
    hide Serial, CacheOk, Safety.PubOk, EntriesFresh, ApplyAll, AllEnabled;
    var w, db', held := s.threads[t], Do(s, t, Commit).db, HeldBy(s.locks, u);
    assert ThreadOk(s.db, s.log, HeldBy(s.locks, t), w) && ThreadOk(s.db, s.log, held, s.threads[u]);
    assert ThreadFresh(s.db, held, s.threads[u]);
    hide SystemOk, Fresh;
    forall id | id in held ensures RowOf(s.db, id) == RowOf(db', id) {
      Untouched(s.db, w.trail, id);
    }
    SharedRows(s.db, db', s.threads[u].trail, held);
  }

  lemma {:induction false} CommitKeepsCarried(s: System, t: nat, u: nat)
    requires Fresh(s) && CanDo(s, t, Commit) && !Overlapped(s, t) && u != t && u in s.threads
    ensures CarriedFresh(Do(s, t, Commit).db, s.threads[u])
  {
    assert ThreadFresh(s.db, HeldBy(s.locks, u), s.threads[u]);
    hide Fresh, ApplyAll;
    forall order | Carries(s.threads[u], order) ensures RowOf(Do(s, t, Commit).db, order.id) == Some(order) {
      assert !Rewrites(s, t, order.id);
    }
  }

  lemma {:induction false} CommitKeepsEntries(s: System, t: nat)
    requires Fresh(s) && WorksOk(s) && CanDo(s, t, Commit)
    ensures EntriesFresh(Do(s, t, Commit))
  {
    var w, s' := s.threads[t], Do(s, t, Commit);
    assert WorkOk(w);
    hide ApplyAll, WorkOk, WorksOk, ThreadsFresh;
    forall id | id in s'.cache ensures RowOf(s'.db, id) == Some(s'.cache[id]) || Owed(s', id) {
      if RowOf(s'.db, id) != RowOf(s.db, id) {
        KeysChanged(s.db, w, id);
        assert Owes(s'.threads[t], id);
      } else if Owed(s, id) {
        var u :| u in s.threads && Owes(s.threads[u], id);
        assert Owes(s'.threads[u], id);
      }
    }
  }

  lemma BothFresh(s: System)
    requires ThreadsFresh(s) && EntriesFresh(s)
    ensures Fresh(s)
  {
  }

  lemma {:induction false} CommittedFresh(db: Db, held: set<string>, w: Thread)
    requires w.Working? && StagedFresh(db, held, w)
    ensures forall others :: ThreadFresh(ApplyAll(db, w.trail), others, Posting(w.pending))
  {
    hide ApplyAll;
    forall order | Carries(Posting(w.pending), order) ensures RowOf(ApplyAll(db, w.trail), order.id) == Some(order) {
      var k :| 0 <= k < |w.pending| && w.pending[k] == Put(order);
    }
  }

  lemma NothingStaged(db: Db, held: set<string>, w: Thread)
    requires !w.Working?
    ensures StagedFresh(db, held, w)
  {
  }

  lemma {:induction false} CommitFresh(s: System, t: nat)
    requires Fresh(s) && SystemOk(s) && WorksOk(s) && CanDo(s, t, Commit) && !Overlapped(s, t)
    ensures Fresh(Do(s, t, Commit))
  {
    hide Serial, CacheOk, ThreadsOk, Safety.PubOk, WorkOk, StagedFresh, ApplyAll, Overlapped, EntriesFresh;
    var w, s' := s.threads[t], Do(s, t, Commit);
    CommitKeepsEntries(s, t);
    assert ThreadFresh(s.db, HeldBy(s.locks, t), w);
    CommittedFresh(s.db, HeldBy(s.locks, t), w);
    hide SystemOk, WorksOk, CarriedFresh, Fresh;
    forall u | u in s'.threads && u != t ensures ThreadFresh(s'.db, HeldBy(s'.locks, u), s'.threads[u]) {
      assert HeldBy(s'.locks, u) == HeldBy(s.locks, u);
      CommitKeepsCarried(s, t, u);
      if s.threads[u].Working? {
        CommitKeepsStaged(s, t, u);
      } else {
        NothingStaged(s'.db, HeldBy(s'.locks, u), s.threads[u]);
      }
    }
    BothFresh(s');
  }

  lemma {:induction false} PublishFresh(s: System, step: P.PubStep)
    requires Fresh(s) && CanDo(s, 0, Publish(step))
    ensures Fresh(Do(s, 0, Publish(step)))
  {
    hide P.Do, P.CanStep, ApplyAll;
    var s' := Do(s, 0, Publish(step));
    forall t | t in s.threads ensures ThreadFresh(s'.db, HeldBy(s.locks, t), s.threads[t]) {
      assert ThreadFresh(s.db, HeldBy(s.locks, t), s.threads[t]);
      if s.threads[t].Working? {
        OutboxIrrelevant(s.db, s'.db.outbox, s.threads[t].trail);
      }
    }
    hide ThreadFresh;
    forall id | id in s'.cache ensures RowOf(s'.db, id) == Some(s'.cache[id]) || Owed(s', id) {
      if Owed(s, id) {
        var u :| u in s.threads && Owes(s.threads[u], id);
        assert Owes(s'.threads[u], id);
      }
    }
  }

  lemma {:induction false} RestartFresh(s: System, loaded: bool)
    ensures Fresh(Do(s, 0, Restart(loaded)))
  {
  }

  lemma {:induction false} StepKeepsFresh(s: System, t: nat, step: Step)
    requires Fresh(s) && SystemOk(s) && WorksOk(s) && CanDo(s, t, step) && (step.Commit? ==> !Overlapped(s, t))
    ensures Fresh(Do(s, t, step))
  {
    hide Fresh, SystemOk, WorksOk, Overlapped;
    match step
    case Stage(loggedAt) => StageFresh(s, t, loggedAt);
    case Insert(loggedAt) => InsertFresh(s, t, loggedAt);
    case Delete(loggedAt) => DeleteFresh(s, t, loggedAt);
    case Commit => CommitFresh(s, t);
    case UpdateCache(_) => UpdateFresh(s, t, step);
    case Fill => UpdateFresh(s, t, step);
    case Restart(loaded) => RestartFresh(s, loaded);
    case Publish(p) => PublishFresh(s, p);
    case LockedRead => LockedReadFresh(s, t);
    case ReadRow => ReadRowFresh(s, t);
    case _ => QuietFresh(s, t, step);
  }

  lemma {:induction false} CleanFresh(run: seq<Taken>)
    requires CanRun(run) && Clean(run)
    ensures Fresh(Reached(run))
    decreases |run|
  {
    if |run| > 0 {
      var front, last := run[..|run| - 1], run[|run| - 1];
      CleanFresh(front);
      RunKeeps(front);
      RunKeepsWork(front);
      hide Fresh, SystemOk, WorksOk, Overlapped, Do, CanDo;
      StepKeepsFresh(Reached(front), last.t, last.step);
    }
  }

  // Finishing the cache updates in hand.

  predicate SettledThread(w: Thread) {
    !w.Holding? && (w.Posting? ==> w.pending == [])
  }

  /** No cache update is in hand. */
  predicate Settled(s: System) {
    forall t :: t in s.threads ==> SettledThread(s.threads[t])
  }

  /**
   As long as no commit is overlapped, every cached order is its row, unless the thread that
   committed the change has not told the cache yet; once all have, the cache is a part of the table.
   */
  lemma {:induction false} CleanCache(run: seq<Taken>)
    requires CanRun(run) && Clean(run)
    ensures var s := Reached(run);
            && (forall id :: id in s.cache ==> RowOf(s.db, id) == Some(s.cache[id]) || Owed(s, id))
            && (Settled(s) ==> PartOf(s.cache, s.db.orders))
  {
    CleanFresh(run);
    RunKeeps(run);
    var s := Reached(run);
    hide Serial, ThreadsOk, Safety.PubOk, ThreadsFresh, Reached, CanRun, Clean;
    if Settled(s) {
      forall id | id in s.cache ensures !Owed(s, id) {
      }
    }
  }

  predicate TellsCache(step: Step) {
    step.UpdateCache? || step.Fill?
  }

  /** The run goes on with cache updates only. */
  predicate Continues(run: seq<Taken>, longer: seq<Taken>) {
    run <= longer && forall i :: |run| <= i < |longer| ==> TellsCache(longer[i].step)
  }

  /** The run goes on with cache updates until none is left. */
  ghost predicate Settles(run: seq<Taken>, longer: seq<Taken>) {
    Continues(run, longer) && CanRun(longer) && Settled(Reached(longer))
  }

  lemma {:induction false} CleanContinues(run: seq<Taken>, longer: seq<Taken>)
    requires CanRun(run) && CanRun(longer) && Clean(run) && Continues(run, longer)
    ensures Clean(longer)
    decreases |longer|
  {
    if |run| == |longer| {
      assert run == longer;
    } else {
      CleanContinues(run, longer[..|longer| - 1]);
    }
  }

  /** One more cache update of a thread, everything else as it was. */
  lemma {:induction false} TellNext(run: seq<Taken>, t: nat, k: nat) returns (longer: seq<Taken>)
    requires CanRun(run) && t in Reached(run).threads
    requires Reached(run).threads[t].Posting? && k < |Reached(run).threads[t].pending|
    ensures CanRun(longer) && Continues(run, longer)
    ensures var s, pending := Reached(run), Reached(run).threads[t].pending;
            Reached(longer) == s.(cache := Tell(s.cache, pending[k]),
                                  threads := s.threads[t := Posting(pending[..k] + pending[k + 1..])])
  {
    hide Reached, CanRun, Tell;
    longer := Then(run, t, UpdateCache(k));
  }

  /** The thread makes all its cache updates; nothing but the cache and this thread changes. */
  lemma {:induction false} FinishThread(run: seq<Taken>, t: nat) returns (longer: seq<Taken>)
    requires CanRun(run) && t in Reached(run).threads
    ensures CanRun(longer) && Continues(run, longer)
    ensures var s, s' := Reached(run), Reached(longer);
            && s'.db == s.db && s'.threads.Keys <= s.threads.Keys && (t in s'.threads ==> SettledThread(s'.threads[t]))
            && forall u :: u in s.threads && u != t ==> u in s'.threads && s'.threads[u] == s.threads[u]
    decreases var w := Reached(run).threads[t]; if w.Posting? then |w.pending| else 0
  {
    hide CanRun, Tell;
    longer := run;
    var w := Reached(run).threads[t];
    if w.Holding? {
      longer := Then(run, t, Fill);
    } else if w.Posting? && |w.pending| > 0 {
      hide Reached;
      longer := TellNext(run, t, 0);
      longer := FinishThread(longer, t);
    }
  }

  lemma {:induction false} FinishThreads(run: seq<Taken>, ts: set<nat>) returns (longer: seq<Taken>)
    requires CanRun(run)
    ensures CanRun(longer) && Continues(run, longer)
    ensures var s, s' := Reached(run), Reached(longer);
            && s'.db == s.db && s'.threads.Keys <= s.threads.Keys
            && (forall t :: t in ts && t in s'.threads ==> SettledThread(s'.threads[t]))
            && forall u :: u in s.threads && u !in ts ==> u in s'.threads && s'.threads[u] == s.threads[u]
    decreases ts
  {
    hide Reached, CanRun, SettledThread;
    longer := run;
    if ts != {} {
      var t :| t in ts;
      longer := FinishThreads(run, ts - {t});
      if t in Reached(longer).threads {
        longer := FinishThread(longer, t);
      }
    }
  }

  /** The version is the only thing that the thread still has to tell. */
  lemma {:induction false} FinishLast(run: seq<Taken>, t: nat, order: Order) returns (longer: seq<Taken>)
    requires CanRun(run) && t in Reached(run).threads && IsActive(order.status)
    requires Reached(run).threads[t] == Holding(order) || Reached(run).threads[t] == Posting([Put(order)])
    ensures CanRun(longer) && Continues(run, longer)
    ensures var s, s' := Reached(run), Reached(longer);
            && s'.db == s.db && s'.threads.Keys <= s.threads.Keys && (t in s'.threads ==> SettledThread(s'.threads[t]))
            && (forall u :: u in s.threads && u != t ==> u in s'.threads && s'.threads[u] == s.threads[u])
            && order.id in s'.cache && s'.cache[order.id] == order
  {
    hide Reached, CanRun;
    if Reached(run).threads[t].Holding? {
      longer := Then(run, t, Fill);
    } else {
      longer := TellNext(run, t, 0);
    }
  }

  lemma {:induction false} StillCarried(pending: seq<CacheOp>, order: Order, j: nat)
    requires IsActive(order.status) && Put(order) in pending && j < |pending|
    requires pending[j] != Put(order) || exists k :: 0 <= k < |pending| && k != j && pending[k] == Put(order)
    ensures Carries(Posting(pending[..j] + pending[j + 1..]), order)
  {
    var k :| 0 <= k < |pending| && k != j && pending[k] == Put(order);
    assert (pending[..j] + pending[j + 1..])[if k < j then k else k - 1] == Put(order);
  }

  /** The thread makes its cache updates with this version as the last one. */
  lemma {:induction false} FinishWith(run: seq<Taken>, t: nat, order: Order) returns (longer: seq<Taken>)
    requires CanRun(run) && t in Reached(run).threads && Carries(Reached(run).threads[t], order)
    ensures CanRun(longer) && Continues(run, longer)
    ensures var s, s' := Reached(run), Reached(longer);
            && s'.db == s.db && s'.threads.Keys <= s.threads.Keys && (t in s'.threads ==> SettledThread(s'.threads[t]))
            && (forall u :: u in s.threads && u != t ==> u in s'.threads && s'.threads[u] == s.threads[u])
            && order.id in s'.cache && s'.cache[order.id] == order
    decreases var w := Reached(run).threads[t]; if w.Posting? then |w.pending| else 0
  {
    var w := Reached(run).threads[t];
    if w.Holding? || |w.pending| == 1 {
      hide Reached, CanRun;
      assert w == Holding(order) || w == Posting([Put(order)]);
      longer := FinishLast(run, t, order);
    } else {
      var k :| 0 <= k < |w.pending| && w.pending[k] == Put(order);
      var j := if k == 0 then 1 else 0;
      StillCarried(w.pending, order, j);
      hide Reached, CanRun, Tell, Carries, SettledThread;
      longer := TellNext(run, t, j);
      longer := FinishWith(longer, t, order);
    }
  }

  /** Any version that a thread carries can end up in the cache, whatever else there is to tell. */
  lemma {:induction false} CarriedLands(run: seq<Taken>, t: nat, order: Order) returns (longer: seq<Taken>)
    requires CanRun(run) && t in Reached(run).threads && Carries(Reached(run).threads[t], order)
    ensures Settles(run, longer) && Reached(longer).db == Reached(run).db
    ensures order.id in Reached(longer).cache && Reached(longer).cache[order.id] == order
  {
    hide Reached, CanRun, SettledThread;
    longer := FinishThreads(run, Reached(run).threads.Keys - {t});
    longer := FinishWith(longer, t, order);
  }

  lemma {:induction false} CleanCommit(run: seq<Taken>, t: nat, after: seq<Taken>)
    requires CanRun(run) && Clean(run) && CanDo(Reached(run), t, Commit) && !Overlapped(Reached(run), t)
    requires after == run + [Taken(t, Commit)] && CanRun(after)
    ensures Clean(after)
  {
    hide Reached, CanRun, Overlapped;
    assert after[..|after| - 1] == run;
  }

  lemma {:induction false} OverlapHarms(run: seq<Taken>, t: nat, after: seq<Taken>)
    requires CanRun(run) && Clean(run) && CanDo(Reached(run), t, Commit) && Overlapped(Reached(run), t)
    requires CanRun(after) && Reached(after) == Do(Reached(run), t, Commit)
    ensures exists longer :: Settles(after, longer) && !PartOf(Reached(longer).cache, Reached(longer).db.orders)
  {
    var s := Reached(run);
    CleanFresh(run);
    var u, order :| u in s.threads && u != t && Carries(s.threads[u], order) && Rewrites(s, t, order.id);
    assert ThreadFresh(s.db, HeldBy(s.locks, u), s.threads[u]);
    hide Reached, CanRun, Settles, ApplyAll;
    assert RowOf(Reached(after).db, order.id) != Some(order);
    var longer := CarriedLands(after, u, order);
    assert !PartOf(Reached(longer).cache, Reached(longer).db.orders);
  }

  /**
   The cache race, exactly. Let a thread commit after a clean run. Whatever order the cache
   updates in hand are made in, the cache ends as a part of the table, if and only if the commit
   changes no order of which another thread carries a version to the cache.
   */
  lemma {:induction false} OverlapExact(run: seq<Taken>, t: nat)
    requires CanRun(run) && Clean(run) && CanDo(Reached(run), t, Commit)
    ensures var after := run + [Taken(t, Commit)];
            (forall longer :: Settles(after, longer) ==> PartOf(Reached(longer).cache, Reached(longer).db.orders))
            <==> !Overlapped(Reached(run), t)
  {
    var s := Reached(run);
    var after := Then(run, t, Commit);
    hide Reached, CanRun, Do;
    if Overlapped(s, t) {
      OverlapHarms(run, t, after);
    } else {
      CleanCommit(run, t, after);
      forall longer | Settles(after, longer) ensures PartOf(Reached(longer).cache, Reached(longer).db.orders) {
        CleanContinues(after, longer);
        CleanCache(longer);
      }
    }
  }
}
