/**
 The write batcher as a machine of events: deliveries queue up, a size limit or a linger timer
 launches a flush, the flush commits or fails, and a rejected batch is written again one by one.
 */
module BatcherModel {
  import opened EntityGate

  /** What writing one record, or one batch, does to the graph, answers, and counts. */
  datatype Write<G> = Write(graph: G, matched: bool, counts: Stats)
  datatype Writes<G> = Writes(graph: G, flags: seq<bool>, counts: Stats)

  /** The two projections of one data type. */
  datatype Projection<!G, !R> = Projection(single: (G, R) -> Write<G>, batch: (G, seq<R>) -> Writes<G>)

  /** A batch answers every record; a single write counts its record once and answers accordingly. */
  ghost predicate Faithful<G(!new), R(!new)>(p: Projection<G, R>) {
    && (forall g, rs :: |p.batch(g, rs).flags| == |rs|)
    && (forall g, r :: var w := p.single(g, r);
          w.counts.enriched + w.counts.skipped == 1 && 0 <= w.counts.enriched <= 1
              && w.matched == (w.counts.enriched > 0))
  }

  datatype Reason = Outage | Poison | Stopped

  /** A delivery's future. `Reported` is a value the handler has taken and counted. */
  datatype Future = Waiting | Value(matched: bool) | Reported(matched: bool) | Failed(reason: Reason) | Cancelled

  /** One flush: its commit is under way, or its members are being written alone, `next` up. */
  datatype Flight = Committing(batch: seq<nat>) | Replaying(batch: seq<nat>, next: nat)

  /** How a write of one record ends. */
  datatype Verdict = Applied | Raised(reason: Reason)

  /** One committed transaction: the tickets it wrote and the answers it gave. */
  datatype Committed = Together(tickets: seq<nat>, flags: seq<bool>) | Alone(ticket: nat, flag: bool)

  /** `log` is history: the transactions that committed, in commit order. */
  datatype State<G, R> = State(
    records: seq<R>,
    futures: seq<Future>,
    pending: seq<nat>,
    timer: bool,
    flights: map<nat, Flight>,
    launched: nat,
    graph: G,
    totals: Stats,
    log: seq<Committed>)

  datatype Event<R> =
    | Submit(record: R)
    | TimerFires
    | Commits(flight: nat)
    | Unavailable(flight: nat)
    | Rejected(flight: nat)
    | Replays(flight: nat, verdict: Verdict)
    | FlushCancelled(flight: nat)
    | CallerCancels(ticket: nat)
    | HandlerResumes(ticket: nat)
    | Direct(record: R, verdict: Verdict)

  // ------------------------------------------------------------ one event

  /** Settles every member still waiting; a settled future is left alone. */
  function SettleAll(futures: seq<Future>, batch: seq<nat>, f: Future): (r: seq<Future>)
    ensures |r| == |futures|
    ensures forall t | 0 <= t < |r| :: r[t] == if t in batch && futures[t].Waiting? then f else futures[t]
  {
    seq(|futures|, t requires 0 <= t < |futures| => if t in batch && futures[t].Waiting? then f else futures[t])
  }

  function Settle(futures: seq<Future>, ticket: nat, f: Future): seq<Future>
    requires ticket < |futures|
  {
    if futures[ticket].Waiting? then futures[ticket := f] else futures
  }

  /** Gives each member still waiting its flag. */
  function SettleFlags(futures: seq<Future>, batch: seq<nat>, flags: seq<bool>): (r: seq<Future>)
    requires |flags| == |batch| && forall i | 0 <= i < |batch| :: batch[i] < |futures|
    ensures |r| == |futures|
  {
    if batch == [] then futures
    else
      var n := |batch| - 1;
      Settle(SettleFlags(futures, batch[..n], flags[..n]), batch[n], Value(flags[n]))
  }

  /** The members whose caller has not gone away. */
  function Live(futures: seq<Future>, batch: seq<nat>): seq<nat>
    requires forall i | 0 <= i < |batch| :: batch[i] < |futures|
  {
    if batch == [] then []
    else
      var n := |batch| - 1;
      Live(futures, batch[..n]) + (if futures[batch[n]].Waiting? then [batch[n]] else [])
  }

  /** `_flush_now`: take up to a batch, re-arm for what is left, launch what is still live. */
  function FlushNow<G, R>(s: State<G, R>, size: nat): State<G, R>
    requires forall i | 0 <= i < |s.pending| :: s.pending[i] < |s.futures|
  {
    var k := if |s.pending| <= size then |s.pending| else size;
    var batch, rest := s.pending[..k], s.pending[k..];
    var live := Live(s.futures, batch);
    var after := s.(pending := rest, timer := rest != []);
    if live == [] then after
    else after.(flights := s.flights[s.launched := Committing(live)], launched := s.launched + 1)
  }

  function RecordsOf<R>(records: seq<R>, tickets: seq<nat>): (r: seq<R>)
    requires forall i | 0 <= i < |tickets| :: tickets[i] < |records|
    ensures |r| == |tickets| && forall i | 0 <= i < |r| :: r[i] == records[tickets[i]]
  {
    seq(|tickets|, i requires 0 <= i < |tickets| => records[tickets[i]])
  }

  /** Merging a write's counters without the entity keys, which each delivery counts itself. */
  function MergeCounts(totals: Stats, counts: Stats): Stats {
    totals.(created := totals.created + counts.created, updated := totals.updated + counts.updated,
            missing := totals.missing + counts.missing, replays := totals.replays + counts.replays)
  }

  /** The later totals are the earlier ones with a write's own counters added. */
  ghost predicate Adds(totals: Stats, own: Stats, totals': Stats) {
    && totals'.created == totals.created + own.created && totals'.updated == totals.updated + own.updated
    && totals'.missing == totals.missing + own.missing && totals'.replays == totals.replays + own.replays
  }

  /** Merging every counter: what a delivery that wrote its record itself does. */
  function AddCounts(totals: Stats, counts: Stats): Stats {
    MergeCounts(totals, counts).(enriched := totals.enriched + counts.enriched,
                                 skipped := totals.skipped + counts.skipped)
  }

  function CountDelivery(totals: Stats, matched: bool): Stats {
    if matched then totals.(enriched := totals.enriched + 1) else totals.(skipped := totals.skipped + 1)
  }

  /** Tickets everywhere name submitted records. */
  ghost predicate InRange<G, R>(s: State<G, R>) {
    && |s.records| == |s.futures|
    && (forall i | 0 <= i < |s.pending| :: s.pending[i] < |s.futures|)
    && (forall f | f in s.flights :: forall i | 0 <= i < |s.flights[f].batch| :: s.flights[f].batch[i] < |s.futures|)
    && (forall f | f in s.flights && s.flights[f].Replaying? :: s.flights[f].next < |s.flights[f].batch|)
  }

  ghost predicate Enabled<G, R>(s: State<G, R>, e: Event<R>) {
    match e
    case Submit(_) => true
    case TimerFires => s.timer
    case Commits(f) => f in s.flights && s.flights[f].Committing?
    case Unavailable(f) => f in s.flights && s.flights[f].Committing?
    case Rejected(f) => f in s.flights && s.flights[f].Committing?
    case FlushCancelled(f) => f in s.flights && s.flights[f].Committing?
    case Replays(f, _) => f in s.flights && s.flights[f].Replaying?
    case CallerCancels(t) => t < |s.futures|
    case HandlerResumes(t) => t < |s.futures| && s.futures[t].Value?
    case Direct(_, _) => true
  }

  function Land(flights: map<nat, Flight>, f: nat): map<nat, Flight> {
    map g | g in flights && g != f :: flights[g]
  }

  ghost function Next<G(!new), R(!new)>(p: Projection<G, R>, size: nat, s: State<G, R>, e: Event<R>): State<G, R>
    requires Faithful(p) && InRange(s) && Enabled(s, e)
  {
    match e
    case Submit(r) =>
      var queued := s.(records := s.records + [r], futures := s.futures + [Waiting],
                       pending := s.pending + [|s.futures|]);
      if |queued.pending| >= size then FlushNow(queued, size) else queued.(timer := true)
    case TimerFires => FlushNow(s, size)
    case Commits(f) =>
      var batch := s.flights[f].batch;
      var w := p.batch(s.graph, RecordsOf(s.records, batch));
      s.(futures := SettleFlags(s.futures, batch, w.flags), flights := Land(s.flights, f),
         graph := w.graph, totals := MergeCounts(s.totals, w.counts), log := s.log + [Together(batch, w.flags)])
    case Unavailable(f) =>
      s.(futures := SettleAll(s.futures, s.flights[f].batch, Failed(Outage)), flights := Land(s.flights, f))
    case FlushCancelled(f) =>
      s.(futures := SettleAll(s.futures, s.flights[f].batch, Failed(Stopped)), flights := Land(s.flights, f))
    case Rejected(f) =>
      var batch := s.flights[f].batch;
      if |batch| <= 1
      then s.(futures := SettleAll(s.futures, batch, Failed(Poison)), flights := Land(s.flights, f))
      else s.(flights := s.flights[f := Replaying(batch, 0)])
    case Replays(f, verdict) =>
      var batch, k := s.flights[f].batch, s.flights[f].next;
      var t := batch[k];
      var moved := s.(flights := if k + 1 == |batch| then Land(s.flights, f)
                      else s.flights[f := Replaying(batch, k + 1)]);
      (match verdict
       case Applied =>
         var w := p.single(s.graph, s.records[t]);
         moved.(futures := Settle(s.futures, t, Value(w.counts.enriched > 0)),
                graph := w.graph, totals := MergeCounts(s.totals, w.counts), log := s.log + [Alone(t, w.matched)])
       case Raised(reason) => moved.(futures := Settle(s.futures, t, Failed(reason))))
    case CallerCancels(t) => s.(futures := Settle(s.futures, t, Cancelled))
    case HandlerResumes(t) =>
      var matched := s.futures[t].matched;
      s.(futures := s.futures[t := Reported(matched)], totals := CountDelivery(s.totals, matched))
    case Direct(r, verdict) =>
      (match verdict
       case Applied =>
         var w := p.single(s.graph, r);
         s.(records := s.records + [r], futures := s.futures + [Reported(w.counts.enriched > 0)], graph := w.graph,
            totals := AddCounts(s.totals, w.counts), log := s.log + [Alone(|s.futures|, w.matched)])
       case Raised(reason) => s.(records := s.records + [r], futures := s.futures + [Failed(reason)]))
  }

  function Start<G, R>(graph: G): State<G, R> {
    State([], [], [], false, map[], 0, graph, NO_STATS, [])
  }

  // ------------------------------------------------------------ queue invariant

  predicate Ascending(s: seq<nat>) {
    forall i, j | 0 <= i < j < |s| :: s[i] < s[j]
  }

  /** The members of a flight whose write has not been tried yet. */
  function Rest(f: Flight): seq<nat> {
    if f.Replaying? && f.next <= |f.batch| then f.batch[f.next..] else f.batch
  }

  ghost predicate FlightOk(f: Flight, size: nat, n: nat) {
    && 0 < |f.batch| <= size && Ascending(f.batch)
    && (forall i | 0 <= i < |f.batch| :: f.batch[i] < n)
    && (f.Replaying? ==> f.next < |f.batch|)
  }

  ghost predicate AllBelow(a: seq<nat>, b: seq<nat>) {
    forall t, u | t in a && u in b :: t < u
  }

  /** Flights hold at most a batch each, in submission order, and everything in them came before the queue. */
  ghost predicate InOrder(flights: map<nat, Flight>, launched: nat, pending: seq<nat>, size: nat, n: nat) {
    && (forall f | f in flights :: f < launched && FlightOk(flights[f], size, n) && AllBelow(flights[f].batch, pending))
    && (forall f, g | f in flights && g in flights && f < g :: AllBelow(flights[f].batch, flights[g].batch))
  }

  /** A ticket has a place: it waits in the queue, or in one flight's untried part. */
  ghost predicate Placed<G, R>(s: State<G, R>, t: nat) {
    t in s.pending || exists f :: f in s.flights && t in Rest(s.flights[f])
  }

  ghost predicate Queued<G, R>(s: State<G, R>, size: nat) {
    && |s.records| == |s.futures|
    && |s.pending| < size && s.timer == (s.pending != [])
    && Ascending(s.pending) && (forall i | 0 <= i < |s.pending| :: s.pending[i] < |s.futures|)
    && InOrder(s.flights, s.launched, s.pending, size, |s.futures|)
    && (forall t | 0 <= t < |s.futures| && s.futures[t].Waiting? :: Placed(s, t))
  }

  lemma QueuedInRange<G, R>(s: State<G, R>, size: nat)
    requires Queued(s, size)
    ensures InRange(s)
  {
    forall f | f in s.flights ensures FlightOk(s.flights[f], size, |s.futures|) {}
  }

  lemma {:induction false} LiveIsLive(futures: seq<Future>, batch: seq<nat>)
    requires Ascending(batch) && forall i | 0 <= i < |batch| :: batch[i] < |futures|
    ensures var live := Live(futures, batch);
            && Ascending(live) && |live| <= |batch|
            && (forall t :: t in live <==> t in batch && futures[t].Waiting?)
  {
    if batch != [] {
      var n := |batch| - 1;
      LiveIsLive(futures, batch[..n]);
      assert batch == batch[..n] + [batch[n]];
      var front := Live(futures, batch[..n]);
      forall i | 0 <= i < |front| ensures front[i] < batch[n] {
        assert front[i] in front;
      }
    }
  }

  lemma {:induction false} SettleFlagsSettles(futures: seq<Future>, batch: seq<nat>, flags: seq<bool>)
    requires |flags| == |batch| && Ascending(batch) && forall i | 0 <= i < |batch| :: batch[i] < |futures|
    ensures var after := SettleFlags(futures, batch, flags);
            && (forall t | 0 <= t < |futures| && t !in batch :: after[t] == futures[t])
            && (forall i | 0 <= i < |batch| ::
                  after[batch[i]] == if futures[batch[i]].Waiting? then Value(flags[i]) else futures[batch[i]])
  {
    if batch != [] {
      var n := |batch| - 1;
      SettleFlagsSettles(futures, batch[..n], flags[..n]);
      assert batch == batch[..n] + [batch[n]];
      assert batch[n] !in batch[..n];
    }
  }

  /** The state before a flush: like `Queued`, but the queue may just have reached the limit. */
  ghost predicate Filled<G, R>(s: State<G, R>, size: nat) {
    && |s.records| == |s.futures| && 0 < |s.pending| <= size
    && Ascending(s.pending) && (forall i | 0 <= i < |s.pending| :: s.pending[i] < |s.futures|)
    && InOrder(s.flights, s.launched, s.pending, size, |s.futures|)
    && (forall t | 0 <= t < |s.futures| && s.futures[t].Waiting? :: Placed(s, t))
  }

  /** A flush empties the queue into one flight of every live member, in submission order. */
  lemma FlushKeepsQueued<G, R>(s: State<G, R>, size: nat)
    requires Filled(s, size)
    ensures Queued(FlushNow(s, size), size)
    ensures FlushNow(s, size).pending == []
  {
    var after, live := FlushNow(s, size), Live(s.futures, s.pending);
    assert s.pending[..|s.pending|] == s.pending;
    LiveIsLive(s.futures, s.pending);
    if live != [] {
      assert after.flights[s.launched] == Committing(live);
      assert FlightOk(Committing(live), size, |s.futures|) by {
        forall i | 0 <= i < |live| ensures live[i] < |s.futures| { assert live[i] in live; }
      }
    }
    forall t | 0 <= t < |s.futures| && s.futures[t].Waiting? ensures Placed(after, t) {
      assert Placed(s, t);
      if t in s.pending {
        assert t in Rest(after.flights[s.launched]);
      } else {
        var f :| f in s.flights && t in Rest(s.flights[f]);
        assert f in after.flights && after.flights[f] == s.flights[f];
      }
    }
  }

  /** Landing a flight whose untried members have all been settled keeps every waiting ticket placed. */
  lemma LandKeepsQueued<G, R>(s: State<G, R>, s': State<G, R>, f: nat, size: nat)
    requires Queued(s, size) && f in s.flights
    requires s'.records == s.records && |s'.futures| == |s.futures| && s'.pending == s.pending && s'.timer == s.timer
    requires s'.launched == s.launched && s'.flights == Land(s.flights, f)
    requires forall t | 0 <= t < |s.futures| && s'.futures[t].Waiting? ::
               s.futures[t].Waiting? && t !in Rest(s.flights[f])
    ensures Queued(s', size)
  {
    forall t | 0 <= t < |s'.futures| && s'.futures[t].Waiting? ensures Placed(s', t) {
      assert Placed(s, t);
      if t !in s.pending {
        var g :| g in s.flights && t in Rest(s.flights[g]);
        assert g in s'.flights;
      }
    }
  }

  lemma RestStep(batch: seq<nat>, k: nat, t: nat)
    requires k < |batch| && t in batch[k..] && t != batch[k]
    ensures t in batch[k + 1..]
  {
    assert batch[k..] == [batch[k]] + batch[k + 1..];
  }

  lemma TurningKeepsOrder(flights: map<nat, Flight>, launched: nat, pending: seq<nat>, size: nat, n: nat, f: nat,
                          k: nat)
    requires InOrder(flights, launched, pending, size, n) && f in flights && k < |flights[f].batch|
    ensures InOrder(flights[f := Replaying(flights[f].batch, k)], launched, pending, size, n)
  {
    var after := flights[f := Replaying(flights[f].batch, k)];
    forall g | g in after ensures g in flights && after[g].batch == flights[g].batch {}
  }

  /** Settling the member whose turn it is and moving on keeps every waiting ticket placed. */
  lemma MovingOnKeepsQueued<G, R>(s: State<G, R>, s': State<G, R>, f: nat, size: nat)
    requires Queued(s, size) && f in s.flights && s.flights[f].Replaying?
    requires s'.records == s.records && |s'.futures| == |s.futures| && s'.pending == s.pending && s'.timer == s.timer
    requires s'.launched == s.launched
    requires s.flights[f].next + 1 < |s.flights[f].batch|
    requires s'.flights == s.flights[f := Replaying(s.flights[f].batch, s.flights[f].next + 1)]
    requires forall t | 0 <= t < |s.futures| && s'.futures[t].Waiting? ::
               s.futures[t].Waiting? && t != s.flights[f].batch[s.flights[f].next]
    ensures Queued(s', size)
  {
    var batch, k := s.flights[f].batch, s.flights[f].next;
    assert FlightOk(s.flights[f], size, |s.futures|);
    TurningKeepsOrder(s.flights, s.launched, s.pending, size, |s.futures|, f, k + 1);
    forall t | 0 <= t < |s'.futures| && s'.futures[t].Waiting? ensures Placed(s', t) {
      assert Placed(s, t);
      if t !in s.pending {
        var g :| g in s.flights && t in Rest(s.flights[g]);
        assert g in s'.flights;
        if g == f { RestStep(batch, k, t); }
      }
    }
  }

  lemma ReplayKeepsQueued<G(!new), R(!new)>(p: Projection<G, R>, size: nat, s: State<G, R>, f: nat, verdict: Verdict)
    requires Faithful(p) && Queued(s, size) && InRange(s) && Enabled(s, Replays(f, verdict))
    ensures Queued(Next(p, size, s, Replays(f, verdict)), size)
  {
    var s', batch, k := Next(p, size, s, Replays(f, verdict)), s.flights[f].batch, s.flights[f].next;
    assert FlightOk(s.flights[f], size, |s.futures|);
    if k + 1 == |batch| {
      assert batch[k..] == [batch[k]];
      LandKeepsQueued(s, s', f, size);
    } else {
      MovingOnKeepsQueued(s, s', f, size);
    }
  }

  lemma SubmitFills<G, R>(s: State<G, R>, r: R, size: nat)
    requires Queued(s, size)
    ensures Filled(s.(records := s.records + [r], futures := s.futures + [Waiting],
                      pending := s.pending + [|s.futures|]), size)
  {
    var queued := s.(records := s.records + [r], futures := s.futures + [Waiting],
                     pending := s.pending + [|s.futures|]);
    forall t | 0 <= t < |queued.futures| && queued.futures[t].Waiting? ensures Placed(queued, t) {
      if t < |s.futures| {
        assert Placed(s, t);
      } else {
        assert t in queued.pending;
      }
    }
  }

  lemma SubmitKeepsQueued<G(!new), R(!new)>(p: Projection<G, R>, size: nat, s: State<G, R>, r: R)
    requires Faithful(p) && size > 0 && Queued(s, size) && InRange(s)
    ensures Queued(Next(p, size, s, Submit(r)), size)
  {
    var queued := s.(records := s.records + [r], futures := s.futures + [Waiting],
                     pending := s.pending + [|s.futures|]);
    forall t | 0 <= t < |queued.futures| && queued.futures[t].Waiting? ensures Placed(queued, t) {
      if t < |s.futures| {
        assert Placed(s, t);
        if t !in s.pending {
          var f :| f in s.flights && t in Rest(s.flights[f]);
          assert f in queued.flights;
        }
      } else {
        assert t in queued.pending;
      }
    }
    assert Filled(queued, size);
    if |queued.pending| >= size {
      FlushKeepsQueued(queued, size);
    } else {
      var s' := queued.(timer := true);
      forall t | 0 <= t < |s'.futures| && s'.futures[t].Waiting? ensures Placed(s', t) {
        assert Placed(queued, t);
      }
    }
  }

  /** An event that settles futures and moves nothing in the queue. */
  lemma SettlingKeepsQueued<G, R>(s: State<G, R>, s': State<G, R>, size: nat)
    requires Queued(s, size)
    requires s'.records == s.records && |s'.futures| == |s.futures| && s'.pending == s.pending && s'.timer == s.timer
    requires s'.launched == s.launched && s'.flights == s.flights
    requires forall t | 0 <= t < |s.futures| && s'.futures[t].Waiting? :: s.futures[t].Waiting?
    ensures Queued(s', size)
  {
    forall t | 0 <= t < |s'.futures| && s'.futures[t].Waiting? ensures Placed(s', t) {
      assert Placed(s, t);
    }
  }

  lemma DirectKeepsQueued<G(!new), R(!new)>(p: Projection<G, R>, size: nat, s: State<G, R>, r: R, verdict: Verdict)
    requires Faithful(p) && Queued(s, size) && InRange(s)
    ensures Queued(Next(p, size, s, Direct(r, verdict)), size)
  {
    var s' := Next(p, size, s, Direct(r, verdict));
    forall t | 0 <= t < |s'.futures| && s'.futures[t].Waiting? ensures Placed(s', t) {
      assert Placed(s, t);
    }
  }

  lemma RejectedKeepsQueued<G(!new), R(!new)>(p: Projection<G, R>, size: nat, s: State<G, R>, f: nat)
    requires Faithful(p) && Queued(s, size) && InRange(s) && Enabled(s, Rejected(f)) && |s.flights[f].batch| > 1
    ensures Queued(Next(p, size, s, Rejected(f)), size)
  {
    var s', batch := Next(p, size, s, Rejected(f)), s.flights[f].batch;
    assert FlightOk(s.flights[f], size, |s.futures|);
    assert batch[0..] == batch;
    TurningKeepsOrder(s.flights, s.launched, s.pending, size, |s.futures|, f, 0);
    forall t | 0 <= t < |s'.futures| && s'.futures[t].Waiting? ensures Placed(s', t) {
      assert Placed(s, t);
      if t !in s.pending {
        var g :| g in s.flights && t in Rest(s.flights[g]);
        assert g in s'.flights && t in Rest(s'.flights[g]);
      }
    }
  }

  lemma CommitKeepsQueued<G(!new), R(!new)>(p: Projection<G, R>, size: nat, s: State<G, R>, f: nat)
    requires Faithful(p) && Queued(s, size) && InRange(s) && Enabled(s, Commits(f))
    ensures Queued(Next(p, size, s, Commits(f)), size)
  {
    var s', batch := Next(p, size, s, Commits(f)), s.flights[f].batch;
    var flags := p.batch(s.graph, RecordsOf(s.records, batch)).flags;
    assert FlightOk(s.flights[f], size, |s.futures|);
    SettleFlagsSettles(s.futures, batch, flags);
    forall t | 0 <= t < |s.futures| && s'.futures[t].Waiting? ensures s.futures[t].Waiting? && t !in batch {}
    LandKeepsQueued(s, s', f, size);
  }

  /**
   Whatever happens next, a waiting delivery is in the queue or in one flight's untried part, the
   queue stays shorter than a batch, and the timer is armed exactly while somebody is queued.
   */
  lemma NextKeepsQueued<G(!new), R(!new)>(p: Projection<G, R>, size: nat, s: State<G, R>, e: Event<R>)
    requires Faithful(p) && size > 0 && Queued(s, size) && InRange(s) && Enabled(s, e)
    ensures Queued(Next(p, size, s, e), size)
  {
    match e
    case Submit(r) => SubmitKeepsQueued(p, size, s, r);
    case TimerFires => FlushKeepsQueued(s, size);
    case Commits(f) => CommitKeepsQueued(p, size, s, f);
    case Unavailable(f) => LandKeepsQueued(s, Next(p, size, s, e), f, size);
    case FlushCancelled(f) => LandKeepsQueued(s, Next(p, size, s, e), f, size);
    case Rejected(f) =>
      if |s.flights[f].batch| <= 1 {
        LandKeepsQueued(s, Next(p, size, s, e), f, size);
      } else {
        RejectedKeepsQueued(p, size, s, f);
      }
    case Replays(f, verdict) => ReplayKeepsQueued(p, size, s, f, verdict);
    case CallerCancels(t) => SettlingKeepsQueued(s, Next(p, size, s, e), size);
    case HandlerResumes(t) => SettlingKeepsQueued(s, Next(p, size, s, e), size);
    case Direct(r, verdict) => DirectKeepsQueued(p, size, s, r, verdict);
  }
}
