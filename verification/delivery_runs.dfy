// Outbox rows, crashing and overlapping deliverers, readers, retention and restored queue databases, in every order.
module DeliveryRuns {
  import opened Options
  import opened QueueProjection

  // Version v of a request is row v - 1; `published` is the stamp of the delivery that marked it.
  datatype Row = Row(payload: Payload, published: Option<nat>)

  datatype Outbox = Outbox(root: nat, rootAddress: string, reply: nat, replyAddress: string, rows: seq<Row>)

  // A delivery is one dispatch transaction: it chooses a row, which it keeps locked, commits to the queue database, and marks the
  // row. `begun` is the time the transaction began, which is what it stamps the row with.
  datatype Flight = Flight(request: nat, version: nat, begun: nat, committed: bool)

  // `history` holds the queue after every step; the last entry is the queue now. `due` are the requests a retention pass has
  // read as ended and drained, and whose threads it has still to look at.
  datatype System = System(outboxes: map<nat, Outbox>, history: seq<Queue>, flights: set<Flight>, due: set<nat>)

  datatype Step =
    | Open(request: nat, root: nat, rootAddress: string, reply: nat, replyAddress: string)
    | Write(request: nat, payload: Payload)
    | Choose(request: nat)
    | Commit(flight: Flight)
    | Mark(flight: Flight)
    | Crash(flight: Flight)
    | Read(id: nat, from: Reading, to: Reading)
    | Due(request: nat)
    | Retain(request: nat)
    | Restore(time: nat)
    | Republish(since: nat, chosen: set<nat>)

  const Start := System(map[], [Queue(map[], map[])], {}, {})

  function Now(s: System): Queue
    requires |s.history| > 0
  {
    s.history[|s.history| - 1]
  }

  function Snapshot(o: Outbox, request: nat, version: nat): Projection
    requires 0 < version <= |o.rows|
  {
    Projection(request, version, o.root, o.rootAddress, o.reply, o.replyAddress, o.rows[version - 1].payload)
  }

  predicate Newest(o: Outbox, published: bool) { |o.rows| > 0 && o.rows[|o.rows| - 1].published.Some? == published }

  // The projection of a request ends with the version that carries its reply.
  predicate Complete(o: Outbox) { |o.rows| > 0 && o.rows[|o.rows| - 1].payload.reply.Some? }

  // A snapshot carries the reply exactly when it shows a finished request.
  predicate Sensible(p: Payload) { p.reply.Some? <==> Handled(p.status) }

  function MarkRows(rows: seq<Row>, version: nat, stamp: nat): seq<Row> {
    seq(|rows|, i requires 0 <= i < |rows| => if i < version && rows[i].published.None? then rows[i].(published := Some(stamp)) else rows[i])
  }

  // Every row of the request is published.
  predicate Drained(o: Outbox) { forall i :: 0 <= i < |o.rows| ==> o.rows[i].published.Some? }

  predicate Thread(hot: map<nat, Message>, request: nat, id: nat) { id in hot && hot[id].owner.Owner? && hot[id].owner.request == request }

  // All messages of the thread are handled, and the archive holds nothing different under their ids.
  predicate Retainable(q: Queue, request: nat) {
    && (exists id :: id in q.hot && Thread(q.hot, request, id))
    && (forall id :: id in q.hot && Thread(q.hot, request, id) ==> Handled(q.hot[id].status) && (id in q.archive ==> q.archive[id] == q.hot[id]))
  }

  function Archived(q: Queue, request: nat): Queue {
    Queue(map id | id in q.hot && !Thread(q.hot, request, id) :: q.hot[id],
          map id | id in q.hot.Keys + q.archive.Keys && (id in q.archive || Thread(q.hot, request, id)) :: if id in q.archive then q.archive[id] else q.hot[id])
  }

  predicate Flying(s: System, request: nat, version: nat) { exists f :: f in s.flights && f.request == request && f.version == version }

  // Another deliverer still holds the lock of a row this mark has to write.
  predicate Blocked(s: System, f: Flight) { exists g :: g in s.flights && g != f && g.request == f.request && g.version <= f.version }

  // This mark goes through.
  predicate Marks(s: System, f: Flight) { f in s.flights && f.committed && f.request in s.outboxes && !Blocked(s, f) }

  predicate Known(s: System, f: Flight) { f.request in s.outboxes && 0 < f.version <= |s.outboxes[f.request].rows| }

  // The newest row was stamped at or after the given time.
  predicate Republished(o: Outbox, since: nat) { Newest(o, true) && o.rows[|o.rows| - 1].published.value >= since }

  function Unmark(o: Outbox): Outbox
    requires |o.rows| > 0
  {
    o.(rows := o.rows[|o.rows| - 1 := o.rows[|o.rows| - 1].(published := None)])
  }

  function Marked(o: Outbox, f: Flight): Outbox { o.(rows := MarkRows(o.rows, f.version, f.begun)) }

  function Later(s: System, q: Queue): System { s.(history := s.history + [q]) }

  // A step whose guard fails leaves everything but the clock as it was.
  function Next(s: System, step: Step): System
    requires |s.history| > 0
  {
    var q := Now(s);
    match step
    case Open(r, root, rootAddress, reply, replyAddress) =>
      if r in s.outboxes || reply == root then Later(s, q)
      else Later(s.(outboxes := s.outboxes[r := Outbox(root, rootAddress, reply, replyAddress, [])]), q)
    case Write(r, payload) =>
      if r !in s.outboxes || Complete(s.outboxes[r]) || !Sensible(payload) then Later(s, q)
      else Later(s.(outboxes := s.outboxes[r := s.outboxes[r].(rows := s.outboxes[r].rows + [Row(payload, None)])]), q)
    case Choose(r) =>
      if r !in s.outboxes || !Newest(s.outboxes[r], false) || Flying(s, r, |s.outboxes[r].rows|) then Later(s, q)
      else Later(s.(flights := s.flights + {Flight(r, |s.outboxes[r].rows|, |s.history|, false)}), q)
    case Commit(f) =>
      if f !in s.flights || f.committed || !Known(s, f) then Later(s, q)
      else
        var hot := Apply(q.hot, Snapshot(s.outboxes[f.request], f.request, f.version));
        if hot.None? then Later(s.(flights := s.flights - {f}), q)
        else Later(s.(flights := s.flights - {f} + {f.(committed := true)}), q.(hot := hot.value))
    case Mark(f) =>
      if !Marks(s, f) then Later(s, q)
      else Later(s.(outboxes := s.outboxes[f.request := Marked(s.outboxes[f.request], f)], flights := s.flights - {f}), q)
    case Crash(f) => Later(s.(flights := s.flights - {f}), q)
    case Read(id, from, to) =>
      if id !in q.hot || q.hot[id].owner == Nobody || q.hot[id].owner.role != ReplyRole || q.hot[id].status != from then Later(s, q)
      else Later(s, q.(hot := q.hot[id := q.hot[id].(status := to)]))
    case Due(r) =>
      if r !in s.outboxes || !Complete(s.outboxes[r]) || !Drained(s.outboxes[r]) then Later(s, q)
      else Later(s.(due := s.due + {r}), q)
    case Retain(r) =>
      if r !in s.due || r !in s.outboxes then Later(s, q)
      else Later(s.(due := s.due - {r}), if Retainable(q, r) then Archived(q, r) else q)
    case Restore(t) => Later(s, if t < |s.history| then s.history[t] else q)
    case Republish(since, chosen) =>
      Later(s.(outboxes := map r | r in s.outboxes :: if r in chosen && Republished(s.outboxes[r], since) then Unmark(s.outboxes[r]) else s.outboxes[r]), q)
  }

  function Run(s: System, steps: seq<Step>): (t: System)
    requires |s.history| > 0
    ensures |t.history| == |s.history| + |steps|
  {
    if |steps| == 0 then s else Next(Run(s, steps[..|steps| - 1]), steps[|steps| - 1])
  }

  /* ---- what every run keeps ---- */

  // Root and reply of a request among the hot messages: the root shows a version that was written, the reply stands beside the
  // last version, and only there, and it says what that version says.
  predicate Faithful(hot: map<nat, Message>, r: nat, o: Outbox) {
    && (o.root in hot && hot[o.root].owner == Owner(r, RootRole) ==>
          && 0 < hot[o.root].version <= |o.rows|
          && hot[o.root] == RootOf(Snapshot(o, r, hot[o.root].version))
          && (o.rows[hot[o.root].version - 1].payload.reply.Some? ==> o.reply in hot && hot[o.reply].owner == Owner(r, ReplyRole)))
    && (o.reply in hot && hot[o.reply].owner == Owner(r, ReplyRole) ==>
          && Complete(o) && o.root in hot && hot[o.root].owner == Owner(r, RootRole) && hot[o.root].version == |o.rows|
          && hot[o.reply] == ReplyOf(Snapshot(o, r, |o.rows|)).(status := hot[o.reply].status))
  }

  // The archive holds a thread whole, at its last version, or nothing of it.
  predicate Filed(archive: map<nat, Message>, r: nat, o: Outbox) {
    && (o.root in archive && archive[o.root].owner == Owner(r, RootRole) ==> Complete(o) && ShowsNewest(archive, r, o))
  }

  // The messages show exactly the newest snapshot of the request, with its reply if and only if it carries one.
  predicate ShowsNewest(messages: map<nat, Message>, r: nat, o: Outbox)
    requires |o.rows| > 0
  {
    var p := Snapshot(o, r, |o.rows|);
    && o.root in messages && messages[o.root] == RootOf(p)
    && (p.payload.reply.Some? <==> o.reply in messages && messages[o.reply].owner == Owner(r, ReplyRole))
    && (p.payload.reply.Some? ==> messages[o.reply] == ReplyOf(p).(status := messages[o.reply].status))
  }

  // The queue shows at least this version of the request, or holds its thread in the archive.
  predicate Has(q: Queue, r: nat, o: Outbox, version: nat)
    requires 0 < version <= |o.rows|
  {
    || (o.root in q.archive && q.archive[o.root].owner == Owner(r, RootRole))
    || (&& o.root in q.hot && q.hot[o.root].owner == Owner(r, RootRole) && q.hot[o.root].version >= version
        && (o.rows[version - 1].payload.reply.Some? ==> o.reply in q.hot && q.hot[o.reply].owner == Owner(r, ReplyRole)))
  }

  // Messages that name a request sit under that request's own ids.
  predicate OwnIds(s: System, hot: map<nat, Message>) {
    forall id :: id in hot && hot[id].owner.Owner? ==>
                   && hot[id].owner.request in s.outboxes
                   && id == (if hot[id].owner.role == RootRole then s.outboxes[hot[id].owner.request].root else s.outboxes[hot[id].owner.request].reply)
  }

  predicate Mirror(s: System, q: Queue) {
    && OwnIds(s, q.hot) && OwnIds(s, q.archive)
    && forall r :: r in s.outboxes ==> Faithful(q.hot, r, s.outboxes[r]) && Filed(q.archive, r, s.outboxes[r])
  }

  predicate RowsOf(o: Outbox) {
    && o.root != o.reply
    && (forall i :: 0 <= i < |o.rows| ==> Sensible(o.rows[i].payload))
    && (forall i :: 0 <= i < |o.rows| && o.rows[i].payload.reply.Some? ==> i + 1 == |o.rows|)
  }

  // A delivery in flight holds an unpublished row.
  predicate Flies(s: System, f: Flight) { Known(s, f) && s.outboxes[f.request].rows[f.version - 1].published.None? }

  predicate AllRows(s: System) { forall r :: r in s.outboxes ==> RowsOf(s.outboxes[r]) }

  predicate AllMirrors(s: System) { forall u :: 0 <= u < |s.history| ==> Mirror(s, s.history[u]) }

  predicate AllFly(s: System) { forall f :: f in s.flights ==> Flies(s, f) }

  predicate Good(s: System) { |s.history| > 0 && AllRows(s) && AllMirrors(s) && AllFly(s) }

  /* ---- outboxes that say the same ---- */

  // The later outbox has the same ids and keeps every payload that was written.
  predicate Extends(o: Outbox, n: Outbox) {
    && n.root == o.root && n.rootAddress == o.rootAddress && n.reply == o.reply && n.replyAddress == o.replyAddress
    && |o.rows| <= |n.rows| && (Complete(o) ==> |n.rows| == |o.rows|)
    && forall i :: 0 <= i < |o.rows| ==> n.rows[i].payload == o.rows[i].payload
  }

  predicate OutboxesExtend(s: System, t: System) {
    && (forall r :: r in s.outboxes ==> r in t.outboxes && Extends(s.outboxes[r], t.outboxes[r]))
    && (forall r :: r in t.outboxes && r !in s.outboxes ==> |t.outboxes[r].rows| == 0)
  }

  lemma ExtendsFaithful(q: Queue, r: nat, o: Outbox, n: Outbox)
    requires Faithful(q.hot, r, o) && Filed(q.archive, r, o) && Extends(o, n)
    ensures Faithful(q.hot, r, n) && Filed(q.archive, r, n)
  {}

  lemma ExtendsHas(q: Queue, r: nat, o: Outbox, n: Outbox, version: nat)
    requires Extends(o, n) && 0 < version <= |o.rows|
    ensures version <= |n.rows| && (Has(q, r, n, version) <==> Has(q, r, o, version))
  {}

  // A request that has just been opened has no message yet.
  lemma UnseenFaithful(s: System, q: Queue, r: nat, o: Outbox)
    requires Mirror(s, q) && r !in s.outboxes
    ensures Faithful(q.hot, r, o) && Filed(q.archive, r, o)
  {}

  lemma OwnIdsStay(s: System, t: System, messages: map<nat, Message>)
    requires OwnIds(s, messages) && OutboxesExtend(s, t)
    ensures OwnIds(t, messages)
  {}

  // Outboxes that only extend leave every queue of the history a faithful mirror.
  lemma StillMirror(s: System, t: System, q: Queue)
    requires Mirror(s, q) && OutboxesExtend(s, t)
    ensures Mirror(t, q)
  {
    hide Faithful, Filed, Extends, OwnIds;
    OwnIdsStay(s, t, q.hot);
    OwnIdsStay(s, t, q.archive);
    forall r | r in t.outboxes ensures Faithful(q.hot, r, t.outboxes[r]) && Filed(q.archive, r, t.outboxes[r]) {
      if r in s.outboxes { ExtendsFaithful(q, r, s.outboxes[r], t.outboxes[r]); } else { UnseenFaithful(s, q, r, t.outboxes[r]); }
    }
  }

  /* ---- every step keeps the runs good ---- */

  // The clock has moved on by one queue state.
  predicate Ticked(s: System, t: System) { |s.history| > 0 && |t.history| == |s.history| + 1 && t.history[..|s.history|] == s.history }

  lemma HistoryMirrors(s: System, t: System)
    requires AllMirrors(s) && Ticked(s, t) && OutboxesExtend(s, t) && Mirror(s, Now(t))
    ensures AllMirrors(t)
  {
    hide Mirror, OutboxesExtend;
    var n := |s.history|;
    forall u | 0 <= u < |t.history| ensures Mirror(t, t.history[u]) {
      if u < n { assert t.history[..n][u] == t.history[u]; }
      StillMirror(s, t, t.history[u]);
    }
  }

  lemma Extend(s: System, step: Step)
    requires |s.history| > 0
    ensures OutboxesExtend(s, Next(s, step)) && Ticked(s, Next(s, step))
  {
    hide MarkRows, Blocked, Retainable, Archived, Apply;
    if step.Mark? && Marks(s, step.flight) { MarkedPayloads(s.outboxes[step.flight.request], step.flight); }
  }

  lemma MarkedPayloads(o: Outbox, f: Flight)
    ensures Extends(o, Marked(o, f))
  {}

  lemma NextRows(s: System, step: Step)
    requires |s.history| > 0 && AllRows(s)
    ensures AllRows(Next(s, step))
  {
    hide Blocked, Retainable, Archived, Apply, Handled;
  }

  // A mark that is not blocked leaves the locked rows of other deliveries unpublished.
  lemma NextFlies(s: System, step: Step)
    requires |s.history| > 0 && AllFly(s)
    ensures AllFly(Next(s, step))
  {
    hide Retainable, Archived, Apply;
    var t := Next(s, step);
    forall f | f in t.flights ensures Flies(t, f) {
      if f in s.flights { assert Flies(s, f); }
      if step.Commit? && step.flight in s.flights { assert Flies(s, step.flight); }
    }
  }

  // Applying a projection in flight keeps every thread faithful.
  lemma AppliedMirror(s: System, q: Queue, r: nat, version: nat)
    requires Mirror(s, q) && AllRows(s) && r in s.outboxes && 0 < version <= |s.outboxes[r].rows|
    requires Apply(q.hot, Snapshot(s.outboxes[r], r, version)).Some?
    ensures Mirror(s, q.(hot := Apply(q.hot, Snapshot(s.outboxes[r], r, version)).value))
  {
    hide Filed, Adoptable, Apply, Faithful, OwnIds;
    var p := Snapshot(s.outboxes[r], r, version);
    var next := Apply(q.hot, p).value;
    forall x | x in s.outboxes ensures Faithful(next, x, s.outboxes[x]) && Filed(q.archive, x, s.outboxes[x]) {
      assert Faithful(q.hot, x, s.outboxes[x]) && RowsOf(s.outboxes[x]);
      if x != r { OthersFaithful(q.hot, next, p, x, s.outboxes[x]); } else { OwnFaithful(q.hot, next, p, s.outboxes[x]); }
    }
    AppliedIds(s, q.hot, next, p);
  }

  lemma AppliedIds(s: System, hot: map<nat, Message>, next: map<nat, Message>, p: Projection)
    requires OwnIds(s, hot) && Apply(hot, p) == Some(next) && p.request in s.outboxes
    requires p.root == s.outboxes[p.request].root && p.reply == s.outboxes[p.request].reply
    ensures OwnIds(s, next)
  {}

  lemma OthersFaithful(hot: map<nat, Message>, next: map<nat, Message>, p: Projection, r: nat, o: Outbox)
    requires Apply(hot, p) == Some(next) && r != p.request && Faithful(hot, r, o)
    ensures Faithful(next, r, o)
  {}

  lemma OwnFaithful(hot: map<nat, Message>, next: map<nat, Message>, p: Projection, o: Outbox)
    requires Apply(hot, p) == Some(next) && Faithful(hot, p.request, o) && RowsOf(o)
    requires 0 < p.version <= |o.rows| && p == Snapshot(o, p.request, p.version)
    ensures Faithful(next, p.request, o)
  {}

  lemma ReadMirror(s: System, q: Queue, id: nat, to: Reading)
    requires Mirror(s, q) && id in q.hot && q.hot[id].owner.Owner? && q.hot[id].owner.role == ReplyRole
    ensures Mirror(s, q.(hot := q.hot[id := q.hot[id].(status := to)]))
  {
    hide Filed;
    var next := q.hot[id := q.hot[id].(status := to)];
    forall r | r in s.outboxes ensures Faithful(next, r, s.outboxes[r]) && Filed(q.archive, r, s.outboxes[r]) {
      assert Faithful(q.hot, r, s.outboxes[r]);
    }
  }

  // What retention moves is a thread at its last version, with its reply.
  lemma RetainedMirror(s: System, q: Queue, r: nat)
    requires Mirror(s, q) && AllRows(s) && r in s.outboxes && Retainable(q, r)
    ensures Mirror(s, Archived(q, r))
  {
    hide OwnIds, Faithful, Filed, Retainable, Archived;
    var next := Archived(q, r);
    forall x | x in s.outboxes ensures Faithful(next.hot, x, s.outboxes[x]) && Filed(next.archive, x, s.outboxes[x]) {
      assert Faithful(q.hot, x, s.outboxes[x]) && Filed(q.archive, x, s.outboxes[x]) && RowsOf(s.outboxes[x]);
      if x == r { RetainedFiled(q, r, s.outboxes[r]); } else { OthersFiled(q, r, x, s.outboxes[x]); }
    }
    RetainedIds(s, q, r);
  }

  lemma RetainedIds(s: System, q: Queue, r: nat)
    requires OwnIds(s, q.hot) && OwnIds(s, q.archive)
    ensures OwnIds(s, Archived(q, r).hot) && OwnIds(s, Archived(q, r).archive)
  {}

  lemma RetainedFiled(q: Queue, r: nat, o: Outbox)
    requires Faithful(q.hot, r, o) && Filed(q.archive, r, o) && RowsOf(o) && Retainable(q, r)
    ensures Faithful(Archived(q, r).hot, r, o) && Filed(Archived(q, r).archive, r, o)
  {}

  lemma OthersFiled(q: Queue, r: nat, x: nat, o: Outbox)
    requires Faithful(q.hot, x, o) && Filed(q.archive, x, o) && x != r
    ensures Faithful(Archived(q, r).hot, x, o) && Filed(Archived(q, r).archive, x, o)
  {}

  lemma NextMirrors(s: System, step: Step)
    requires Good(s)
    ensures AllMirrors(Next(s, step))
  {
    hide AllFly, AllRows, Mirror, Marks, Flying, Newest, Republished, Retainable, Archived, Apply, OutboxesExtend, Sensible;
    var q := Now(s);
    assert Mirror(s, q);
    Extend(s, step);
    match step {
      case Commit(f) => if Known(s, f) && Apply(q.hot, Snapshot(s.outboxes[f.request], f.request, f.version)).Some? { AppliedMirror(s, q, f.request, f.version); }
      case Read(id, from, to) => if id in q.hot && q.hot[id].owner != Nobody && q.hot[id].owner.role == ReplyRole { ReadMirror(s, q, id, to); }
      case Retain(r) => if r in s.outboxes && Retainable(q, r) { RetainedMirror(s, q, r); }
      case _ =>
    }
    HistoryMirrors(s, Next(s, step));
  }

  lemma NextGood(s: System, step: Step)
    requires Good(s)
    ensures Good(Next(s, step))
  {
    hide AllMirrors, AllFly, AllRows, Next;
    Extend(s, step);
    NextRows(s, step);
    NextMirrors(s, step);
    NextFlies(s, step);
  }

  lemma {:induction false} GoodRun(s: System, steps: seq<Step>)
    requires Good(s)
    ensures Good(Run(s, steps))
  {
    hide Good, Next;
    Nonempty(s);
    if |steps| > 0 {
      GoodRun(s, steps[..|steps| - 1]);
      NextGood(Run(s, steps[..|steps| - 1]), steps[|steps| - 1]);
    }
  }

  // Every run keeps root, reply and archive of every request faithful to its outbox, in every queue state it went through.
  lemma RunGood(steps: seq<Step>)
    ensures Good(Run(Start, steps))
  {
    hide Run;
    GoodRun(Start, steps);
  }

  lemma Nonempty(s: System)
    requires Good(s)
    ensures |s.history| > 0
  {}

  lemma RunGrows(s: System, steps: seq<Step>, step: Step)
    requires |s.history| > 0
    ensures Run(s, steps + [step]) == Next(Run(s, steps), step)
  {
    hide Next;
    assert (steps + [step])[..|steps|] == steps;
  }

  lemma {:induction false} RunOn(s: System, steps: seq<Step>, more: seq<Step>)
    requires |s.history| > 0
    ensures Run(s, steps + more) == Run(Run(s, steps), more)
  {
    hide Next;
    if |more| == 0 {
      assert steps + more == steps;
    } else {
      RunOn(s, steps, more[..|more| - 1]);
      assert (steps + more)[..|steps + more| - 1] == steps + more[..|more| - 1];
    }
  }

  /* ---- what a sender sees, and what a restored queue has forgotten ---- */

  // The newest row of the request is marked, and the queue does not have it.
  predicate Forgotten(s: System, r: nat)
    requires |s.history| > 0
  {
    r in s.outboxes && Newest(s.outboxes[r], true) && !Has(Now(s), r, s.outboxes[r], |s.outboxes[r].rows|)
  }

  // In every run: a request whose newest row is marked is not forgotten if and only if the queue, or the archive, shows exactly
  // the newest snapshot, with its reply if and only if that snapshot carries one.
  lemma DrainedShowsNewest(steps: seq<Step>, r: nat)
    requires r in Run(Start, steps).outboxes && Newest(Run(Start, steps).outboxes[r], true)
    ensures var s := Run(Start, steps); var o, q := s.outboxes[r], Now(s);
            !Forgotten(s, r) <==> ShowsNewest(q.hot, r, o) || (Complete(o) && ShowsNewest(q.archive, r, o))
  {
    hide AllFly, AllRows, Next;
    RunGood(steps);
    var s := Run(Start, steps);
    assert Mirror(s, Now(s));
    HasShows(Now(s), r, s.outboxes[r]);
  }

  lemma HasShows(q: Queue, r: nat, o: Outbox)
    requires Faithful(q.hot, r, o) && Filed(q.archive, r, o) && |o.rows| > 0
    ensures Has(q, r, o, |o.rows|) <==> ShowsNewest(q.hot, r, o) || (Complete(o) && ShowsNewest(q.archive, r, o))
  {}

  // The next queue keeps whatever the queue has of the request.
  predicate Keeps(q: Queue, next: Queue, r: nat, o: Outbox) {
    forall v :: 0 < v <= |o.rows| && Has(q, r, o, v) ==> Has(next, r, o, v)
  }

  lemma AppliedHas(q: Queue, next: map<nat, Message>, p: Projection, r: nat, o: Outbox)
    requires Apply(q.hot, p) == Some(next)
    ensures Keeps(q, q.(hot := next), r, o)
    ensures r == p.request && 0 < p.version <= |o.rows| && p == Snapshot(o, r, p.version) ==> Has(q.(hot := next), r, o, p.version)
  {}

  lemma RetainedKeeps(q: Queue, r: nat, x: nat, o: Outbox)
    requires Retainable(q, r)
    ensures Keeps(q, Archived(q, r), x, o)
  {}

  lemma ReadKeeps(q: Queue, id: nat, to: Reading, r: nat, o: Outbox)
    requires id in q.hot
    ensures Keeps(q, q.(hot := q.hot[id := q.hot[id].(status := to)]), r, o)
  {}

  // Every step but a restore leaves in the queue what it has of a request.
  lemma NextKeeps(s: System, step: Step, r: nat, o: Outbox)
    requires |s.history| > 0 && !step.Restore?
    ensures Keeps(Now(s), Now(Next(s, step)), r, o)
  {
    hide Has, Apply, Marks, Flying, Newest, Republished, Retainable, Archived, Sensible;
    var q := Now(s);
    match step
    case Commit(f) =>
      if Known(s, f) && Apply(q.hot, Snapshot(s.outboxes[f.request], f.request, f.version)).Some? {
        AppliedHas(q, Apply(q.hot, Snapshot(s.outboxes[f.request], f.request, f.version)).value, Snapshot(s.outboxes[f.request], f.request, f.version), r, o);
      }
    case Read(id, from, to) => if id in q.hot { ReadKeeps(q, id, to, r, o); }
    case Retain(x) => if Retainable(q, x) { RetainedKeeps(q, x, r, o); }
    case _ =>
  }

  // How a step may move the marker of a request's newest row.
  lemma NewestMarked(s: System, step: Step, r: nat)
    requires |s.history| > 0 && r in s.outboxes && AllFly(s)
    ensures r in Next(s, step).outboxes
    ensures var o, n := s.outboxes[r], Next(s, step).outboxes[r];
            && (Newest(n, true) ==> |n.rows| == |o.rows|)
            && (Newest(n, true) && !Newest(o, true) ==> step.Mark? && Marks(s, step.flight) && step.flight.request == r && step.flight.version == |o.rows|)
            && (Newest(o, true) && !Newest(n, true) ==> step.Write? || step.Republish?)
            && (step.Mark? && Marks(s, step.flight) && step.flight.request == r && step.flight.version == |o.rows| ==> Newest(n, true) && !Newest(o, true))
  {
    hide Blocked, Retainable, Archived, Apply;
    if step.Mark? && step.flight in s.flights { assert Flies(s, step.flight); }
  }

  // A mark leaves the queue as it is; a restore brings an old one back and moves no outbox.
  lemma StillQueue(s: System, step: Step)
    requires |s.history| > 0
    ensures step.Mark? ==> Now(Next(s, step)) == Now(s)
    ensures step.Restore? ==> Next(s, step).outboxes == s.outboxes && Now(Next(s, step)) == if step.time < |s.history| then s.history[step.time] else Now(s)
  {
    hide Blocked, Retainable, Archived, Apply;
  }

  // A step makes a request forgotten in exactly two ways: a restored queue lacks its marked newest row, or a delivery marks the
  // newest row although the queue, restored behind its commit, lacks it.
  lemma ForgetsExactly(steps: seq<Step>, step: Step, r: nat)
    requires r in Run(Start, steps).outboxes && !Forgotten(Run(Start, steps), r)
    ensures var s := Run(Start, steps); var o := s.outboxes[r];
            Forgotten(Run(Start, steps + [step]), r) <==>
              || (step.Restore? && step.time < |s.history| && Newest(o, true) && !Has(s.history[step.time], r, o, |o.rows|))
              || (step.Mark? && Marks(s, step.flight) && step.flight.request == r && 0 < step.flight.version == |o.rows| && !Has(Now(s), r, o, |o.rows|))
  {
    hide Forgotten, Next, Has, Marks, Newest;
    RunGood(steps);
    RunGrows(Start, steps, step);
    Forgets(Run(Start, steps), step, r);
  }

  lemma Forgets(s: System, step: Step, r: nat)
    requires Good(s) && r in s.outboxes && !Forgotten(s, r)
    ensures var o := s.outboxes[r];
            Forgotten(Next(s, step), r) <==>
              || (step.Restore? && step.time < |s.history| && Newest(o, true) && !Has(s.history[step.time], r, o, |o.rows|))
              || (step.Mark? && Marks(s, step.flight) && step.flight.request == r && 0 < step.flight.version == |o.rows| && !Has(Now(s), r, o, |o.rows|))
  {
    var o, t := s.outboxes[r], Next(s, step);
    Extend(s, step);
    NewestMarked(s, step, r);
    if !step.Restore? { NextKeeps(s, step, r, o); }
    StillQueue(s, step);
    var n := t.outboxes[r];
    assert Extends(o, n);
    if |o.rows| > 0 { ExtendsHas(Now(t), r, o, n, |o.rows|); }
    hide Next, Has, Marks, Good, Extends;
  }

  // The queue has the request's newest row if that is marked, and every row of it that a delivery has committed.
  predicate Intact(s: System, r: nat)
    requires |s.history| > 0
  {
    && !Forgotten(s, r)
    && forall f :: f in s.flights && f.request == r && f.committed && Known(s, f) ==> Has(Now(s), r, s.outboxes[r], f.version)
  }

  // A committed delivery was committed before, or is committed by this step.
  lemma CommittedFlights(s: System, step: Step, f: Flight)
    requires |s.history| > 0 && f in Next(s, step).flights && f.committed
    ensures f in s.flights || (step.Commit? && f == step.flight.(committed := true) && Known(s, step.flight)
                               && Has(Now(Next(s, step)), f.request, s.outboxes[f.request], f.version))
  {
    hide Has, Apply, Marks, Flying, Newest, Republished, Retainable, Archived, Sensible;
    if step.Commit? && f !in s.flights {
      var p := Snapshot(s.outboxes[f.request], f.request, f.version);
      AppliedHas(Now(s), Apply(Now(s).hot, p).value, p, f.request, s.outboxes[f.request]);
    }
  }

  lemma NextIntact(s: System, step: Step, r: nat)
    requires Good(s) && Intact(s, r) && !step.Restore?
    ensures Intact(Next(s, step), r)
  {
    var t := Next(s, step);
    Extend(s, step);
    if r in s.outboxes {
      Forgets(s, step, r);
      NextKeeps(s, step, r, s.outboxes[r]);
      MarksHas(s, step, r);
      var o, n := s.outboxes[r], t.outboxes[r];
      assert Extends(o, n);
      hide Has, Newest, Marks, Next, Mirror, AllMirrors, AllRows, Extends;
      forall f | f in t.flights && f.request == r && f.committed && Known(t, f) ensures Has(Now(t), r, n, f.version) {
        CommittedFlights(s, step, f);
        if f in s.flights { assert Flies(s, f); }
        ExtendsHas(Now(t), r, o, n, f.version);
      }
    }
  }

  lemma MarksHas(s: System, step: Step, r: nat)
    requires Good(s) && Intact(s, r) && r in s.outboxes
    ensures step.Mark? && Marks(s, step.flight) && step.flight.request == r && step.flight.version == |s.outboxes[r].rows| ==>
              |s.outboxes[r].rows| > 0 && Has(Now(s), r, s.outboxes[r], |s.outboxes[r].rows|)
  {
    hide Has, Mirror, AllRows, Blocked, Forgotten;
    if step.Mark? && step.flight in s.flights { assert Flies(s, step.flight); }
  }

  predicate NoRestore(steps: seq<Step>) { forall i :: 0 <= i < |steps| ==> !steps[i].Restore? }

  // As long as no queue is restored, an intact request stays intact; and it is never forgotten.
  lemma {:induction false} RunIntact(s: System, steps: seq<Step>, r: nat)
    requires Good(s) && Intact(s, r) && NoRestore(steps)
    ensures Intact(Run(s, steps), r)
  {
    hide Good, Next, Intact;
    Nonempty(s);
    if |steps| > 0 {
      RunIntact(s, steps[..|steps| - 1], r);
      GoodRun(s, steps[..|steps| - 1]);
      NextIntact(Run(s, steps[..|steps| - 1]), steps[|steps| - 1], r);
    }
  }

  // Only a restore makes a queue forget: in a run without one every drained request shows its newest snapshot.
  lemma NothingIsForgotten(steps: seq<Step>, r: nat)
    requires NoRestore(steps)
    ensures !Forgotten(Run(Start, steps), r)
  {
    hide Run, Next;
    GoodRun(Start, []);
    assert Run(Start, []) == Start by { FreshRun(); }
    RunIntact(Start, steps, r);
  }

  lemma FreshRun()
    ensures Run(Start, []) == Start
  {}

  /* ---- republishing after a restore ---- */

  // Every stamp, of a row or still in flight, is the time at which a delivery of that very request chose its row.
  predicate Stamped(steps: seq<Step>, s: System) {
    && (forall r, i :: r in s.outboxes && 0 <= i < |s.outboxes[r].rows| && s.outboxes[r].rows[i].published.Some? ==>
          Began(steps, s.outboxes[r].rows[i].published.value, r))
    && forall f :: f in s.flights ==> Began(steps, f.begun, f.request)
  }

  predicate Began(steps: seq<Step>, time: nat, r: nat) { 0 < time <= |steps| && steps[time - 1] == Choose(r) }

  lemma {:induction false} StampIsBegin(steps: seq<Step>)
    ensures Stamped(steps, Run(Start, steps))
  {
    if |steps| > 0 {
      var shorter := steps[..|steps| - 1];
      StampIsBegin(shorter);
      NextStamped(shorter, Run(Start, shorter), steps[|steps| - 1]);
      assert shorter + [steps[|steps| - 1]] == steps;
    }
  }

  lemma NextStamped(steps: seq<Step>, s: System, step: Step)
    requires |s.history| == |steps| + 1 && Stamped(steps, s)
    ensures Stamped(steps + [step], Next(s, step))
  {
    hide Blocked, Retainable, Archived, Apply, Flying;
    var t := Next(s, step);
    assert forall time, r :: Began(steps, time, r) ==> Began(steps + [step], time, r);
    assert step.Choose? ==> Began(steps + [step], |s.history|, step.request);
  }

  // Republishing hands a forgotten request back to the deliverers, if and only if it is chosen and the delivery that marked its
  // newest row began no earlier than the given time; otherwise it stays forgotten, marked as it is.
  lemma RepublishRecovers(steps: seq<Step>, since: nat, chosen: set<nat>, r: nat)
    requires Forgotten(Run(Start, steps), r)
    ensures var s, t := Run(Start, steps), Run(Start, steps + [Republish(since, chosen)]);
            && r in t.outboxes && s.outboxes[r].rows[|s.outboxes[r].rows| - 1].published.Some?
            && var begun := s.outboxes[r].rows[|s.outboxes[r].rows| - 1].published.value;
            && Began(steps, begun, r)
            && if r in chosen && since <= begun then Newest(t.outboxes[r], false) && !Forgotten(t, r) else t.outboxes[r] == s.outboxes[r] && Forgotten(t, r)
  {
    hide Run, Stamped, Next, Forgotten, Began, Newest;
    StampIsBegin(steps);
    RunGrows(Start, steps, Republish(since, chosen));
    StampOf(steps, Run(Start, steps), r);
    HandsBack(Run(Start, steps), since, chosen, r);
  }

  lemma StampOf(steps: seq<Step>, s: System, r: nat)
    requires |s.history| > 0 && Stamped(steps, s) && Forgotten(s, r)
    ensures r in s.outboxes && |s.outboxes[r].rows| > 0
    ensures var row := s.outboxes[r].rows[|s.outboxes[r].rows| - 1]; row.published.Some? && Began(steps, row.published.value, r)
  {
    hide Has, Began;
  }

  lemma HandsBack(s: System, since: nat, chosen: set<nat>, r: nat)
    requires |s.history| > 0 && Forgotten(s, r)
    ensures var t := Next(s, Republish(since, chosen)); var begun := s.outboxes[r].rows[|s.outboxes[r].rows| - 1].published.value;
            && r in t.outboxes
            && if r in chosen && since <= begun then Newest(t.outboxes[r], false) && !Forgotten(t, r) else t.outboxes[r] == s.outboxes[r] && Forgotten(t, r)
  {
    hide Has;
  }

  // From then on, until the next restore, a request that was handed back is never forgotten: whenever its newest row is marked again
  // the queue or the archive shows it. Only a delivery of it that was committed before the restore and not yet marked is excluded.
  lemma RecoveredForGood(steps: seq<Step>, since: nat, chosen: set<nat>, r: nat, later: seq<Step>)
    requires r in Run(Start, steps).outboxes && Republished(Run(Start, steps).outboxes[r], since) && r in chosen && NoRestore(later)
    requires forall f :: f in Run(Start, steps).flights && f.request == r && f.committed && Known(Run(Start, steps), f) ==>
               Has(Now(Run(Start, steps)), r, Run(Start, steps).outboxes[r], f.version)
    ensures !Forgotten(Run(Run(Start, steps + [Republish(since, chosen)]), later), r)
  {
    hide Has, Run;
    var s := Run(Start, steps);
    RunGood(steps);
    RunGrows(Start, steps, Republish(since, chosen));
    RunGood(steps + [Republish(since, chosen)]);
    var t := Next(s, Republish(since, chosen));
    var o, n := s.outboxes[r], t.outboxes[r];
    assert n == Unmark(o);
    forall f | f in t.flights && f.request == r && f.committed && Known(t, f) ensures Has(Now(t), r, n, f.version) {
      assert f in s.flights && Known(s, f);
      ExtendsHas(Now(t), r, o, n, f.version);
    }
    RunIntact(t, later, r);
  }

  /* ---- a restore that republishing from the restore point does not repair ---- */

  const Answer := Payload(ReadDone, "finished", Some("answer"))
  const Late := Flight(0, 1, 3, false)

  // A delivery begins, the restore point passes, and only then it commits to the queue and marks its row.
  const Across: seq<Step> := [
    Open(0, 1, "queue", 2, "sender"), Write(0, Answer), Choose(0), Open(7, 8, "queue", 9, "sender"), Commit(Late), Mark(Late.(committed := true)), Restore(4)]

  const Thread0 := Outbox(1, "queue", 2, "sender", [Row(Answer, None)])
  const Thread7 := Outbox(8, "queue", 9, "sender", [])
  const Silent := Queue(map[], map[])
  const Delivered := Queue(map[1 := Message(Owner(0, RootRole), "queue", 1, ReadDone, "finished"),
                               2 := Message(Owner(0, ReplyRole), "sender", 1, Unread, "answer")], map[])

  lemma AcrossBegins()
    ensures Run(Start, Across[..4]) == System(map[0 := Thread0, 7 := Thread7], [Silent, Silent, Silent, Silent, Silent], {Late}, {})
  {
    RunGrows(Start, [], Across[0]);
    assert [] + [Across[0]] == Across[..1];
    assert Run(Start, Across[..1]) == System(map[0 := Thread0.(rows := [])], [Silent, Silent], {}, {});
    RunGrows(Start, Across[..1], Across[1]);
    assert Thread0.(rows := []).rows + [Row(Answer, None)] == Thread0.rows;
    assert Across[..1] + [Across[1]] == Across[..2];
    assert Run(Start, Across[..2]) == System(map[0 := Thread0], [Silent, Silent, Silent], {}, {});
    RunGrows(Start, Across[..2], Across[2]);
    assert Across[..2] + [Across[2]] == Across[..3];
    assert Run(Start, Across[..3]) == System(map[0 := Thread0], [Silent, Silent, Silent, Silent], {Late}, {});
    RunGrows(Start, Across[..3], Across[3]);
    assert Across[..3] + [Across[3]] == Across[..4];
  }

  lemma AcrossMarks()
    ensures Run(Start, Across[..6]) == System(map[0 := Thread0.(rows := [Row(Answer, Some(3))]), 7 := Thread7],
                                              [Silent, Silent, Silent, Silent, Silent, Delivered, Delivered], {}, {})
  {
    AcrossBegins();
    RunGrows(Start, Across[..4], Across[4]);
    assert Across[..4] + [Across[4]] == Across[..5];
    assert Run(Start, Across[..5]) == System(map[0 := Thread0, 7 := Thread7], [Silent, Silent, Silent, Silent, Silent, Delivered], {Late.(committed := true)}, {});
    RunGrows(Start, Across[..5], Across[5]);
    assert Across[..5] + [Across[5]] == Across[..6];
    assert MarkRows(Thread0.rows, 1, 3) == [Row(Answer, Some(3))];
  }

  lemma AcrossEnds()
    ensures Run(Start, Across) == System(map[0 := Thread0.(rows := [Row(Answer, Some(3))]), 7 := Thread7],
                                         [Silent, Silent, Silent, Silent, Silent, Delivered, Delivered, Silent], {}, {})
  {
    hide Run;
    AcrossMarks();
    RunGrows(Start, Across[..6], Across[6]);
    assert Across[..6] + [Across[6]] == Across;
  }

  // The restored queue holds neither root nor reply of the request, its row is marked, and republishing everything that was
  // delivered since the restore point does not hand it back.
  lemma RepublishMissesTheLate()
    ensures var s, t := Run(Start, Across), Run(Start, Across + [Republish(4, {0, 7})]);
            && Across[6] == Restore(4) && 0 in s.outboxes && Forgotten(s, 0) && s.flights == {} && Now(t) == Silent
            && t.outboxes == s.outboxes && Forgotten(t, 0)
            && !Forgotten(Run(Start, Across + [Republish(3, {0, 7})]), 0)
  {
    hide Run;
    AcrossEnds();
    RunGrows(Start, Across, Republish(4, {0, 7}));
    RunGrows(Start, Across, Republish(3, {0, 7}));
  }

  // In every run: a republished thread that retention had already archived comes back to the queue with its next delivery, its
  // reply unread again, and stays in the archive as well; it does so exactly when its newest row was stamped at or after the given time.
  lemma RepublishReopensTheArchived(steps: seq<Step>, r: nat, since: nat)
    requires r in Run(Start, steps).outboxes && Complete(Run(Start, steps).outboxes[r]) && Drained(Run(Start, steps).outboxes[r])
    requires var s := Run(Start, steps); s.outboxes[r].root !in Now(s).hot && s.outboxes[r].reply !in Now(s).hot
    ensures var s := Run(Start, steps); var o := s.outboxes[r];
            var t := Run(Start, steps + [Republish(since, {r}), Choose(r), Commit(Flight(r, |o.rows|, |s.history| + 1, false))]);
            if Republished(o, since)
            then ShowsNewest(Now(t).hot, r, o) && Now(t).hot[o.reply].status == Unread && Now(t).archive == Now(s).archive
            else Now(t) == Now(s)
  {
    hide Good, Next, Republished, ShowsNewest, Drained;
    var s := Run(Start, steps);
    var o := s.outboxes[r];
    RunGood(steps);
    Reopens(s, r, since);
    var republish, commit := Republish(since, {r}), Commit(Flight(r, |o.rows|, |s.history| + 1, false));
    RunGrows(Start, steps, republish);
    RunGrows(Start, steps + [republish], Choose(r));
    RunGrows(Start, steps + [republish] + [Choose(r)], commit);
    assert steps + [republish] + [Choose(r)] + [commit] == steps + [republish, Choose(r), commit];
  }

  lemma Reopens(s: System, r: nat, since: nat)
    requires Good(s) && r in s.outboxes && Complete(s.outboxes[r]) && Drained(s.outboxes[r])
    requires s.outboxes[r].root !in Now(s).hot && s.outboxes[r].reply !in Now(s).hot
    ensures var o := s.outboxes[r]; var n := |o.rows|;
            var t := Next(Next(Next(s, Republish(since, {r})), Choose(r)), Commit(Flight(r, n, |s.history| + 1, false)));
            if Republished(o, since) then
              ShowsNewest(Now(t).hot, r, o) && Now(t).hot[o.reply].status == Unread && Now(t).archive == Now(s).archive
            else Now(t) == Now(s)
  {
    hide AllMirrors, Apply, Retainable, Archived;
    var o := s.outboxes[r];
    var f := Flight(r, |o.rows|, |s.history| + 1, false);
    assert RowsOf(o);
    var a := Next(s, Republish(since, {r}));
    var b := Next(a, Choose(r));
    assert a.outboxes[r] == if Republished(o, since) then Unmark(o) else o;
    assert !Flying(a, r, |o.rows|) by { forall g | g in s.flights ensures !(g.request == r && g.version == |o.rows|) { assert Flies(s, g); } }
    if Republished(o, since) {
      assert f in b.flights;
      assert Snapshot(b.outboxes[r], r, |o.rows|) == Snapshot(o, r, |o.rows|);
    } else {
      assert f !in b.flights;
    }
  }

  /* ---- retention reads what is due before it moves anything ---- */

  // The i-th step reads the request as ended and drained.
  predicate ReadAt(steps: seq<Step>, i: nat, r: nat) {
    && i < |steps| && steps[i] == Due(r)
    && var s := Run(Start, steps[..i]); r in s.outboxes && Complete(s.outboxes[r]) && Drained(s.outboxes[r])
  }

  // The j-th step republishes the request's newest row.
  predicate HandedAt(steps: seq<Step>, j: nat, r: nat) {
    && j < |steps| && steps[j].Republish? && r in steps[j].chosen
    && var s := Run(Start, steps[..j]); r in s.outboxes && Republished(s.outboxes[r], steps[j].since)
  }

  // The k-th step marks the request's newest row.
  predicate MarkedAt(steps: seq<Step>, k: nat, r: nat) {
    && k < |steps| && steps[k].Mark? && steps[k].flight.request == r
    && var s := Run(Start, steps[..k]); Marks(s, steps[k].flight) && steps[k].flight.version == |s.outboxes[r].rows|
  }

  // The request was read as due, then republished, and not delivered since.
  predicate HandedSince(steps: seq<Step>, r: nat) {
    exists i, j :: 0 <= i < j < |steps| && ReadAt(steps, i, r) && HandedAt(steps, j, r) && forall k :: j < k < |steps| ==> !MarkedAt(steps, k, r)
  }

  predicate EverRead(steps: seq<Step>, r: nat) { exists i :: 0 <= i < |steps| && ReadAt(steps, i, r) }

  // What happened at a step does not depend on what comes later.
  lemma Earlier(steps: seq<Step>, step: Step, i: nat, r: nat)
    requires i < |steps|
    ensures var all := steps + [step];
            (ReadAt(all, i, r) <==> ReadAt(steps, i, r)) && (HandedAt(all, i, r) <==> HandedAt(steps, i, r)) && (MarkedAt(all, i, r) <==> MarkedAt(steps, i, r))
  {
    hide Run, Marks, Republished, Drained, Complete;
    assert (steps + [step])[..i] == steps[..i];
  }

  lemma Latest(steps: seq<Step>, step: Step, r: nat)
    ensures var all, s := steps + [step], Run(Start, steps);
            && (ReadAt(all, |steps|, r) <==> step == Due(r) && r in s.outboxes && Complete(s.outboxes[r]) && Drained(s.outboxes[r]))
            && (HandedAt(all, |steps|, r) <==> step.Republish? && r in step.chosen && r in s.outboxes && Republished(s.outboxes[r], step.since))
            && (MarkedAt(all, |steps|, r) <==> step.Mark? && step.flight.request == r && Marks(s, step.flight) && step.flight.version == |s.outboxes[r].rows|)
  {
    hide Run, Marks, Republished, Drained, Complete;
    assert (steps + [step])[..|steps|] == steps;
  }

  lemma EverReadGrows(steps: seq<Step>, step: Step, r: nat)
    ensures EverRead(steps + [step], r) <==> EverRead(steps, r) || ReadAt(steps + [step], |steps|, r)
  {
    hide ReadAt;
    forall i | 0 <= i < |steps| ensures ReadAt(steps + [step], i, r) <==> ReadAt(steps, i, r) { Earlier(steps, step, i, r); }
  }

  lemma HandedGrows(steps: seq<Step>, step: Step, r: nat)
    ensures HandedSince(steps + [step], r) <==>
              || (HandedSince(steps, r) && !MarkedAt(steps + [step], |steps|, r))
              || (EverRead(steps, r) && HandedAt(steps + [step], |steps|, r))
  {
    hide ReadAt, HandedAt, MarkedAt;
    var all := steps + [step];
    forall i | 0 <= i < |steps| { Earlier(steps, step, i, r); }
    if HandedSince(all, r) {
      var i, j :| 0 <= i < j < |all| && ReadAt(all, i, r) && HandedAt(all, j, r) && forall k :: j < k < |all| ==> !MarkedAt(all, k, r);
      assert ReadAt(steps, i, r);
      if j < |steps| {
        assert HandedAt(steps, j, r);
        forall k | j < k < |steps| ensures !MarkedAt(steps, k, r) { assert !MarkedAt(all, k, r); }
      }
    }
    if HandedSince(steps, r) && !MarkedAt(all, |steps|, r) {
      var i, j :| 0 <= i < j < |steps| && ReadAt(steps, i, r) && HandedAt(steps, j, r) && forall k :: j < k < |steps| ==> !MarkedAt(steps, k, r);
      assert ReadAt(all, i, r) && HandedAt(all, j, r);
      forall k | j < k < |all| ensures !MarkedAt(all, k, r) {}
    }
    if EverRead(steps, r) && HandedAt(all, |steps|, r) {
      var i :| 0 <= i < |steps| && ReadAt(steps, i, r);
      assert ReadAt(all, i, r);
    }
  }

  // A request that was read as due has ended for ever; its newest row is unpublished if it was republished and not delivered since,
  // and, as long as the pass has still to look at it, only then.
  predicate DueTells(steps: seq<Step>, s: System, r: nat) {
    && (r in s.due ==> EverRead(steps, r))
    && (EverRead(steps, r) ==> r in s.outboxes && Complete(s.outboxes[r]))
    && (HandedSince(steps, r) ==> EverRead(steps, r) && r in s.outboxes && Newest(s.outboxes[r], false))
    && (r in s.due && r in s.outboxes && Newest(s.outboxes[r], false) ==> HandedSince(steps, r))
  }

  lemma {:induction false} DueRun(steps: seq<Step>, r: nat)
    ensures DueTells(steps, Run(Start, steps), r)
  {
    hide Next, DueTells, EverRead, HandedSince;
    if |steps| == 0 {
      NothingDue(r);
      assert steps == [];
    } else {
      var shorter, last := steps[..|steps| - 1], steps[|steps| - 1];
      assert shorter + [last] == steps;
      DueRun(shorter, r);
      RunGood(shorter);
      NextDue(shorter, last, r);
    }
  }

  lemma NothingDue(r: nat)
    ensures DueTells([], Run(Start, []), r)
  {}

  lemma NextDue(steps: seq<Step>, step: Step, r: nat)
    requires Good(Run(Start, steps)) && DueTells(steps, Run(Start, steps), r)
    ensures DueTells(steps + [step], Next(Run(Start, steps), step), r)
  {
    hide Run, Next, EverRead, HandedSince, ReadAt, HandedAt, MarkedAt, Marks, Republished, Drained, Complete, Newest, Good;
    var s := Run(Start, steps);
    EverReadGrows(steps, step, r);
    HandedGrows(steps, step, r);
    Latest(steps, step, r);
    DueMoves(s, step, r);
  }

  // How a step moves the due list and an ended request's newest row.
  lemma DueMoves(s: System, step: Step, r: nat)
    requires Good(s)
    ensures |s.history| > 0
    ensures var t := Next(s, step);
            && (r in t.due && r !in s.due ==> step == Due(r) && r in s.outboxes && Complete(s.outboxes[r]) && Drained(s.outboxes[r]))
            && (r in s.outboxes && Complete(s.outboxes[r]) ==>
                  && r in t.outboxes && Complete(t.outboxes[r])
                  && (Newest(t.outboxes[r], false) <==>
                        || (Newest(s.outboxes[r], false)
                            && !(step.Mark? && step.flight.request == r && Marks(s, step.flight) && step.flight.version == |s.outboxes[r].rows|))
                        || (step.Republish? && r in step.chosen && Republished(s.outboxes[r], step.since)))
                  && (Drained(s.outboxes[r]) ==> !Newest(s.outboxes[r], false)))
  {
    hide AllRows, AllMirrors, Retainable, Archived, Apply, Blocked, Flying, Sensible;
    if r in s.outboxes && Complete(s.outboxes[r]) { NewestMarked(s, step, r); }
  }

  // Retention moves a thread whose newest snapshot is unpublished exactly when the pass has still to look at it, it is handled, and a
  // republish that took effect came after the pass had read it as due, with no delivery since; and what it moves is that newest
  // snapshot, whole, so that nothing is lost.
  lemma UnpublishedMovesExactly(steps: seq<Step>, r: nat)
    requires r in Run(Start, steps).outboxes
    ensures var s, t := Run(Start, steps), Run(Start, steps + [Retain(r)]);
            Newest(s.outboxes[r], false) && Now(t) != Now(s) <==> r in s.due && Retainable(Now(s), r) && HandedSince(steps, r)
    ensures var s, t := Run(Start, steps), Run(Start, steps + [Retain(r)]);
            Now(t) != Now(s) ==>
              && t.outboxes == s.outboxes && Complete(t.outboxes[r]) && t.outboxes[r].root in Now(t).archive && ShowsNewest(Now(t).archive, r, t.outboxes[r])
  {
    hide Run, HandedSince, EverRead, ShowsNewest, Sensible, Good, Newest, Complete;
    RunGood(steps);
    DueRun(steps, r);
    RunGrows(Start, steps, Retain(r));
    var s := Run(Start, steps);
    if Retainable(Now(s), r) {
      ThreadGoes(Now(s), r);
      if r in s.due { MovedNewest(s, r); }
    }
  }

  lemma ThreadGoes(q: Queue, r: nat)
    requires Retainable(q, r)
    ensures Archived(q, r) != q
  {
    var id :| id in q.hot && Thread(q.hot, r, id);
    assert id !in Archived(q, r).hot;
  }

  lemma MovedNewest(s: System, r: nat)
    requires Good(s) && r in s.outboxes && Retainable(Now(s), r) && Complete(s.outboxes[r])
    ensures s.outboxes[r].root in Archived(Now(s), r).archive && ShowsNewest(Archived(Now(s), r).archive, r, s.outboxes[r])
  {
    var q, o := Now(s), s.outboxes[r];
    assert Mirror(s, q) && RowsOf(o);
    RetainedMirror(s, q, r);
    assert Faithful(q.hot, r, o) && Filed(Archived(q, r).archive, r, o);
    var id :| id in q.hot && Thread(q.hot, r, id);
    assert id == o.root || id == o.reply;
  }

  // A pass reads the drained request as due, it is republished, and its handled thread goes to the archive with its row unpublished.
  const Raced: seq<Step> := [
    Open(0, 1, "queue", 2, "sender"), Write(0, Answer), Choose(0), Commit(Late), Mark(Late.(committed := true)), Read(2, Unread, ReadDone),
    Due(0), Republish(0, {0}), Retain(0)]

  const Handled0 := Queue(Delivered.hot[2 := Delivered.hot[2].(status := ReadDone)], map[])
  const Marked0 := Thread0.(rows := [Row(Answer, Some(3))])

  lemma RacedBegins()
    ensures Run(Start, Raced[..5]) == System(map[0 := Marked0], [Silent, Silent, Silent, Silent, Delivered, Delivered], {}, {})
  {
    RunGrows(Start, [], Raced[0]);
    assert [] + [Raced[0]] == Raced[..1];
    assert Run(Start, Raced[..1]) == System(map[0 := Thread0.(rows := [])], [Silent, Silent], {}, {});
    RunGrows(Start, Raced[..1], Raced[1]);
    assert Thread0.(rows := []).rows + [Row(Answer, None)] == Thread0.rows;
    assert Raced[..1] + [Raced[1]] == Raced[..2];
    assert Run(Start, Raced[..2]) == System(map[0 := Thread0], [Silent, Silent, Silent], {}, {});
    RunGrows(Start, Raced[..2], Raced[2]);
    assert Raced[..2] + [Raced[2]] == Raced[..3];
    assert Run(Start, Raced[..3]) == System(map[0 := Thread0], [Silent, Silent, Silent, Silent], {Late}, {});
    RunGrows(Start, Raced[..3], Raced[3]);
    assert Raced[..3] + [Raced[3]] == Raced[..4];
    assert Run(Start, Raced[..4]) == System(map[0 := Thread0], [Silent, Silent, Silent, Silent, Delivered], {Late.(committed := true)}, {});
    RunGrows(Start, Raced[..4], Raced[4]);
    assert Raced[..4] + [Raced[4]] == Raced[..5];
    assert MarkRows(Thread0.rows, 1, 3) == [Row(Answer, Some(3))];
  }

  lemma RacedReads()
    ensures var s := Run(Start, Raced[..7]); s.outboxes == map[0 := Marked0] && Now(s) == Handled0 && s.due == {0} && s.flights == {}
  {
    RacedBegins();
    RunGrows(Start, Raced[..5], Raced[5]);
    assert Raced[..5] + [Raced[5]] == Raced[..6];
    RunGrows(Start, Raced[..6], Raced[6]);
    assert Raced[..6] + [Raced[6]] == Raced[..7];
  }

  lemma RacedRepublishes()
    ensures var s := Run(Start, Raced[..8]); s.outboxes == map[0 := Thread0] && Now(s) == Handled0 && s.due == {0}
  {
    RacedReads();
    RunGrows(Start, Raced[..7], Raced[7]);
    assert Raced[..7] + [Raced[7]] == Raced[..8];
    assert Unmark(Marked0) == Thread0;
  }

  lemma UnpublishedThreadMoves()
    ensures var s, t := Run(Start, Raced[..8]), Run(Start, Raced);
            && Raced[8] == Retain(0) && 0 in s.outboxes && Newest(s.outboxes[0], false) && Now(t) != Now(s)
            && t.outboxes == s.outboxes && Now(t).hot == map[]
  {
    hide Run;
    RacedRepublishes();
    RunGrows(Start, Raced[..8], Raced[8]);
    assert Raced[..8] + [Raced[8]] == Raced;
    assert Thread(Handled0.hot, 0, 1) && Retainable(Handled0, 0);
  }

  /* ---- messages only advance ---- */

  // The later message is the same one at no lower version; at the same version it says the same, and a reply says the same for ever.
  predicate Beyond(m: Message, n: Message) {
    && n.owner == m.owner && n.address == m.address && n.version >= m.version
    && (n.version == m.version ==> n.body == m.body)
    && (m.owner.Owner? && m.owner.role == ReplyRole ==> n == m.(status := n.status))
  }

  predicate Stands(q: Queue, id: nat, m: Message) { (id in q.hot && Beyond(m, q.hot[id])) || (id in q.archive && Beyond(m, q.archive[id])) }

  // Until the next restore nothing takes a message away, lowers a root or rewrites a reply: whatever stood in the queue at one time
  // stands there or in the archive at every later time, at its version or a later one, a reply with its text.
  lemma {:induction false} MessagesOnlyAdvance(s: System, steps: seq<Step>, id: nat)
    requires Good(s) && id in Now(s).hot && NoRestore(steps)
    ensures Stands(Now(Run(s, steps)), id, Now(s).hot[id])
  {
    hide Good, Next, Stands;
    Nonempty(s);
    if |steps| == 0 {
      assert Stands(Now(s), id, Now(s).hot[id]) by { StandsNow(Now(s), id); }
    } else {
      MessagesOnlyAdvance(s, steps[..|steps| - 1], id);
      GoodRun(s, steps[..|steps| - 1]);
      Advances(Run(s, steps[..|steps| - 1]), steps[|steps| - 1], id, Now(s).hot[id]);
    }
  }

  lemma StandsNow(q: Queue, id: nat)
    requires id in q.hot
    ensures Stands(q, id, q.hot[id])
  {}

  lemma Advances(s: System, step: Step, id: nat, m: Message)
    requires Good(s) && !step.Restore? && Stands(Now(s), id, m)
    ensures Stands(Now(Next(s, step)), id, m)
  {
    hide AllFly, AllRows, AllMirrors, Apply, Marks, Flying, Newest, Republished, Sensible;
    match step
    case Commit(f) => if Known(s, f) && id in Now(s).hot { AppliedAdvances(Now(s).hot, Snapshot(s.outboxes[f.request], f.request, f.version), id); }
    case _ =>
  }

  lemma AppliedAdvances(hot: map<nat, Message>, p: Projection, id: nat)
    requires id in hot
    ensures Apply(hot, p).Some? ==> id in Apply(hot, p).value && Beyond(hot[id], Apply(hot, p).value[id])
  {}

  // A reply is never visible before its root, and never beside a root of an older version.
  lemma ReplyFollowsRoot(steps: seq<Step>, r: nat)
    requires var s := Run(Start, steps); r in s.outboxes && s.outboxes[r].reply in Now(s).hot && Now(s).hot[s.outboxes[r].reply].owner == Owner(r, ReplyRole)
    ensures var s := Run(Start, steps); var o, hot := s.outboxes[r], Now(s).hot;
            |o.rows| > 0 && o.rows[|o.rows| - 1].payload.reply == Some(hot[o.reply].body) && ShowsNewest(hot, r, o)
  {
    hide AllFly, AllRows, Next, Has;
    RunGood(steps);
    var s := Run(Start, steps);
    assert Mirror(s, Now(s));
    assert Faithful(Now(s).hot, r, s.outboxes[r]);
  }

  /* ---- one projector ---- */

  class Projector {
    var system: System
    // Requests whose last delivery failed wait for their next attempt.
    var waiting: set<nat>

    constructor ()
      ensures system == Start && waiting == {}
    {
      system, waiting := Start, {};
    }

    // One delivery: one dispatch transaction around one queue transaction, which may fail.
    method DeliverOne(r: nat, fails: bool) returns (ok: bool, ghost steps: seq<Step>)
      requires Good(system) && r in system.outboxes && Newest(system.outboxes[r], false) && !Held(system, r)
      modifies this`system
      // It is confirmed exactly when nothing fails and the newest snapshot finds its ids free or its own; then the queue shows it and
      // all rows of the request are published. Else the queue and the outboxes are as they were.
      ensures |old(system).history| > 0 && |system.history| > 0
      ensures ok <==> !fails && Welcome(old(system), r)
      ensures ok ==> Shown(old(system), system, r)
      ensures !ok ==> Now(system) == Now(old(system)) && system.outboxes == old(system).outboxes
      ensures |old(system).history| > 0 && Good(system) && system == Run(old(system), steps) && NoRestore(steps)
      ensures system.flights == old(system).flights && system.outboxes.Keys == old(system).outboxes.Keys
      ensures forall x :: x in system.outboxes && Newest(old(system).outboxes[x], true) ==> Newest(system.outboxes[x], true)
      ensures ok ==> Newest(system.outboxes[r], true)
    {
      hide Good, Next, Newest, Held, Welcome, Shown;
      Delivery(system, r, fails);
      ghost var s := system;
      var f := Flight(r, |system.outboxes[r].rows|, |system.history|, false);
      var c := f.(committed := true);
      system := Next(system, Choose(r));
      RunGrows(s, [], Choose(r));
      steps := [] + [Choose(r)];
      if !fails {
        system := Next(system, Commit(f));
        RunGrows(s, steps, Commit(f));
        steps := steps + [Commit(f)];
      }
      ok := c in system.flights;
      RunGrows(s, steps, if ok then Mark(c) else Crash(f));
      steps := steps + [if ok then Mark(c) else Crash(f)];
      system := Next(system, if ok then Mark(c) else Crash(f));
    }

    // At most `limit` deliveries of newest rows, beside whatever deliveries of others are in flight; a request one of them holds is
    // skipped. Every queue state the pass goes through is one of a run, and a pass that ends before its limit leaves no due row behind.
    // What becomes of each request it tries says `Passed`.
    method DeliverOutbox(limit: nat, fails: seq<bool>) returns (delivered: nat, failed: nat, ghost steps: seq<Step>, ghost tried: seq<nat>)
      requires Good(system) && limit <= |fails|
      modifies this
      ensures Good(system) && system == Run(old(system), steps) && system.flights == old(system).flights && NoRestore(steps)
      ensures delivered + failed <= limit && old(waiting) <= waiting
      ensures delivered + failed < limit ==>
                forall r :: r in system.outboxes && Newest(system.outboxes[r], false) ==> r in waiting || Held(system, r)
      ensures system.outboxes.Keys == old(system).outboxes.Keys
      ensures forall r :: r in system.outboxes && Newest(old(system).outboxes[r], true) ==> Newest(system.outboxes[r], true)
      ensures |tried| == delivered + failed && (failed == 0 <==> waiting == old(waiting))
      ensures Passed(old(system), old(waiting), system, waiting, fails, tried)
      ensures delivered + failed < limit ==> forall r :: IsDue(old(system), old(waiting), r) ==> r in tried
      ensures Apart(old(system)) && (forall j :: 0 <= j < limit ==> !fails[j]) && (forall r :: IsDue(old(system), old(waiting), r) ==> Welcome(old(system), r)) ==>
                failed == 0
    {
      hide Good, Next, Newest, Held, Welcome, Shown, Visible, Apart, Passed;
      Nonempty(system);
      delivered, failed, steps, tried := 0, 0, [], [];
      NothingPassed(system, waiting, fails);
      for i := 0 to limit
        invariant Good(system) && system == Run(old(system), steps) && system.flights == old(system).flights && NoRestore(steps)
        invariant delivered + failed == i == |tried| && old(waiting) <= waiting && (failed == 0 <==> waiting == old(waiting))
        invariant system.outboxes.Keys == old(system).outboxes.Keys && |system.history| > 0
        invariant forall r :: r in system.outboxes && Newest(old(system).outboxes[r], true) ==> Newest(system.outboxes[r], true)
        invariant Passed(old(system), old(waiting), system, waiting, fails, tried)
      {
        var due := set r | r in system.outboxes && r !in waiting && Newest(system.outboxes[r], false) && !Held(system, r);
        assert forall r :: r in system.outboxes && r !in waiting && Newest(system.outboxes[r], false) && !Held(system, r) ==> r in due;
        if due == {} {
          AllTried(old(system), system, old(waiting), waiting, fails, tried);
          break;
        }
        var r :| r in due;
        ghost var more: seq<Step>;
        var ok: bool;
        ghost var s := system;
        ok, more := DeliverOne(r, fails[i]);
        RunOn(old(system), steps, more);
        steps := steps + more;
        PassesOn(old(system), old(waiting), s, waiting, fails, tried, system, r, ok);
        tried := tried + [r];
        if ok { delivered := delivered + 1; } else { waiting, failed := waiting + {r}, failed + 1; }
      }
      NoneWaits(old(system), old(waiting), system, waiting, fails, tried);
    }
  }

  // A delivery of the request is in flight.
  predicate Held(s: System, r: nat) { exists f :: f in s.flights && f.request == r }

  // The request has an unpublished newest row that nobody delivers and that does not wait for another attempt.
  predicate IsDue(s: System, waiting: set<nat>, r: nat) { r in s.outboxes && Newest(s.outboxes[r], false) && r !in waiting && !Held(s, r) }

  // The queue shows the newest snapshot of the request, and all its rows are published.
  predicate Visible(s: System, r: nat)
    requires |s.history| > 0 && r in s.outboxes
  {
    |s.outboxes[r].rows| > 0 && Drained(s.outboxes[r]) && ShowsNewest(Now(s).hot, r, s.outboxes[r])
  }

  // No two requests have an id in common.
  predicate Apart(s: System) {
    forall r, x :: r in s.outboxes && x in s.outboxes && r != x ==>
                     {s.outboxes[r].root, s.outboxes[r].reply} !! {s.outboxes[x].root, s.outboxes[x].reply}
  }

  // A pass over these requests, one after the other: each of them was due, none was tried twice, and no other request has changed. Where
  // no two requests have an id in common, exactly those wait for another attempt whose delivery failed or whose ids were held by
  // something else, and all others are visible at their newest version.
  ghost predicate Passed(s: System, waited: set<nat>, t: System, waiting: set<nat>, fails: seq<bool>, tried: seq<nat>) {
    && |s.history| > 0 && |t.history| > 0 && |tried| <= |fails| && t.outboxes.Keys == s.outboxes.Keys && t.flights == s.flights
    && (forall i, j :: 0 <= i < j < |tried| ==> tried[i] != tried[j])
    && (forall j :: 0 <= j < |tried| ==> IsDue(s, waited, tried[j]) && (tried[j] in waiting || Newest(t.outboxes[tried[j]], true)))
    && (forall r :: r in t.outboxes && r !in tried ==> t.outboxes[r] == s.outboxes[r])
    && (forall r :: r in waiting ==> r in waited || r in tried)
    && (Apart(s) ==>
          && Apart(t)
          && (forall r :: r in t.outboxes && r !in tried ==> (Welcome(t, r) <==> Welcome(s, r)))
          && forall j :: 0 <= j < |tried| ==>
               if fails[j] || !Welcome(s, tried[j]) then tried[j] in waiting else tried[j] !in waiting && Visible(t, tried[j]))
  }

  lemma NoneWaits(s: System, waited: set<nat>, t: System, waiting: set<nat>, fails: seq<bool>, tried: seq<nat>)
    requires Passed(s, waited, t, waiting, fails, tried) && waited <= waiting
    ensures Apart(s) && (forall j :: 0 <= j < |tried| ==> !fails[j]) && (forall r :: IsDue(s, waited, r) ==> Welcome(s, r)) ==> waiting == waited
  {
    hide IsDue, Welcome, Visible, Apart, Newest;
  }

  lemma NothingPassed(s: System, waiting: set<nat>, fails: seq<bool>)
    requires |s.history| > 0
    ensures Passed(s, waiting, s, waiting, fails, [])
  {}

  lemma PassesOn(s: System, waited: set<nat>, t: System, waiting: set<nat>, fails: seq<bool>, tried: seq<nat>, u: System, r: nat, ok: bool)
    requires Passed(s, waited, t, waiting, fails, tried) && |tried| < |fails| && waited <= waiting
    requires r in t.outboxes && Newest(t.outboxes[r], false) && r !in waiting && !Held(t, r)
    requires |u.history| > 0 && u.flights == t.flights && u.outboxes.Keys == t.outboxes.Keys && (ok <==> !fails[|tried|] && Welcome(t, r))
    requires if ok then Shown(t, u, r) && Newest(u.outboxes[r], true) else Now(u) == Now(t) && u.outboxes == t.outboxes
    ensures Passed(s, waited, u, if ok then waiting else waiting + {r}, fails, tried + [r])
  {
    hide Newest, Held, Welcome, Shown, Visible, Apart;
    NotTwice(t, r);
    SameHeld(s, t, r);
    assert r !in tried;
    ShownChangesOne(t, u, r, ok);
    if Apart(s) { OthersStay(t, u, r, ok); }
    var more, left := tried + [r], if ok then waiting else waiting + {r};
    forall j | 0 <= j < |more| ensures IsDue(s, waited, more[j]) && (more[j] in left || Newest(u.outboxes[more[j]], true)) {
      if j < |tried| { assert more[j] == tried[j]; }
    }
    forall x | x in u.outboxes && x !in more ensures u.outboxes[x] == s.outboxes[x] && (Apart(s) ==> (Welcome(u, x) <==> Welcome(s, x))) {
      assert x !in tried && x != r;
    }
    forall j | 0 <= j < |more| && Apart(s)
      ensures if fails[j] || !Welcome(s, more[j]) then more[j] in left else more[j] !in left && Visible(u, more[j])
    {
      if j < |tried| { assert more[j] == tried[j] != r; }
    }
  }

  lemma NotTwice(s: System, r: nat)
    requires r in s.outboxes && Newest(s.outboxes[r], false)
    ensures !Newest(s.outboxes[r], true)
  {}

  lemma SameHeld(s: System, t: System, r: nat)
    requires s.flights == t.flights
    ensures Held(s, r) <==> Held(t, r)
  {}

  // A pass that finds nothing due has tried everything that was.
  lemma AllTried(s: System, t: System, waited: set<nat>, waiting: set<nat>, fails: seq<bool>, tried: seq<nat>)
    requires Passed(s, waited, t, waiting, fails, tried)
    requires forall r :: r in t.outboxes && Newest(t.outboxes[r], false) ==> r in waiting || Held(t, r)
    ensures forall r :: IsDue(s, waited, r) ==> r in tried
  {
    hide Newest, Welcome, Visible, Apart;
    forall r | IsDue(s, waited, r) ensures r in tried { SameHeld(s, t, r); }
  }

  lemma ShownChangesOne(s: System, t: System, r: nat, ok: bool)
    requires |s.history| > 0 && |t.history| > 0 && (if ok then Shown(s, t, r) else Now(t) == Now(s) && t.outboxes == s.outboxes)
    ensures forall x :: x in t.outboxes && x != r ==> x in s.outboxes && t.outboxes[x] == s.outboxes[x]
    ensures ok ==> r in t.outboxes && Visible(t, r)
  {}

  // A delivery leaves the ids of all other requests as they are.
  lemma OthersStay(s: System, t: System, r: nat, ok: bool)
    requires |s.history| > 0 && |t.history| > 0 && Apart(s) && t.outboxes.Keys == s.outboxes.Keys
    requires if ok then Shown(s, t, r) else Now(t) == Now(s) && t.outboxes == s.outboxes
    ensures Apart(t)
    ensures forall x :: x in s.outboxes && x != r ==> (Welcome(t, x) <==> Welcome(s, x)) && (Visible(s, x) ==> Visible(t, x))
    ensures !ok ==> forall x :: x in s.outboxes ==> (Visible(s, x) ==> Visible(t, x))
  {
    hide Drained;
    forall x | x in s.outboxes && x != r ensures (Welcome(t, x) <==> Welcome(s, x)) && (Visible(s, x) ==> Visible(t, x)) {}
  }

  // The newest snapshot of the request finds its ids in the queue free, or its own.
  predicate Welcome(s: System, r: nat)
    requires |s.history| > 0
  {
    r in s.outboxes && |s.outboxes[r].rows| > 0 && Adoptable(Now(s).hot, Snapshot(s.outboxes[r], r, |s.outboxes[r].rows|))
  }

  // The request was delivered: the queue shows its newest snapshot, its rows say what they said and are all published, and nothing
  // has changed under any other id or of any other request.
  ghost predicate Shown(s: System, t: System, r: nat)
    requires |s.history| > 0 && |t.history| > 0
  {
    && r in s.outboxes && r in t.outboxes && Extends(s.outboxes[r], t.outboxes[r]) && 0 < |t.outboxes[r].rows| == |s.outboxes[r].rows|
    && Drained(t.outboxes[r]) && ShowsNewest(Now(t).hot, r, t.outboxes[r])
    && t.outboxes == s.outboxes[r := t.outboxes[r]] && Now(t).archive == Now(s).archive
    && (forall id :: id != s.outboxes[r].root && id != s.outboxes[r].reply ==>
          (id in Now(t).hot <==> id in Now(s).hot) && (id in Now(s).hot ==> Now(t).hot[id] == Now(s).hot[id]))
  }

  // What one delivery of a request that no other delivery holds does.
  lemma Delivery(s: System, r: nat, fails: bool)
    requires Good(s) && r in s.outboxes && Newest(s.outboxes[r], false) && !Held(s, r)
    ensures |s.history| > 0
    ensures var f := Flight(r, |s.outboxes[r].rows|, |s.history|, false); var c := f.(committed := true);
            var a := Next(s, Choose(r));
            var b := if fails then a else Next(a, Commit(f));
            var t := if c in b.flights then Next(b, Mark(c)) else Next(b, Crash(f));
            && Good(t) && |t.history| > 0 && t.flights == s.flights && t.outboxes.Keys == s.outboxes.Keys
            && (forall x :: x in s.outboxes && Newest(s.outboxes[x], true) ==> Newest(t.outboxes[x], true))
            && (c in b.flights ==> Newest(t.outboxes[r], true))
            && (c in b.flights <==> !fails && Welcome(s, r))
            && (c in b.flights ==> Shown(s, t, r))
            && (c !in b.flights ==> Now(t) == Now(s) && t.outboxes == s.outboxes)
  {
    hide Good, Apply, Retainable, Archived, Shown, Adoptable;
    var f := Flight(r, |s.outboxes[r].rows|, |s.history|, false);
    var c := f.(committed := true);
    Nonempty(s);
    NextGood(s, Choose(r));
    var a := Next(s, Choose(r));
    NextGood(a, Commit(f));
    var b := if fails then a else Next(a, Commit(f));
    NextGood(b, Mark(c));
    NextGood(b, Crash(f));
    if c in b.flights { DeliveryShows(s, Next(b, Mark(c)), r); }
  }

  // A delivery that was committed and marked shows its snapshot.
  lemma DeliveryShows(s: System, t: System, r: nat)
    requires |s.history| > 0 && |t.history| > 0 && Good(t) && r in s.outboxes && |s.outboxes[r].rows| > 0
    requires t.outboxes == s.outboxes[r := s.outboxes[r].(rows := MarkRows(s.outboxes[r].rows, |s.outboxes[r].rows|, |s.history|))]
    requires Apply(Now(s).hot, Snapshot(s.outboxes[r], r, |s.outboxes[r].rows|)) == Some(Now(t).hot) && Now(t).archive == Now(s).archive
    ensures Shown(s, t, r)
  {
    var o, p := t.outboxes[r], Snapshot(s.outboxes[r], r, |s.outboxes[r].rows|);
    assert Mirror(t, Now(t));
    assert Faithful(Now(t).hot, r, o) && RowsOf(o);
    assert p == Snapshot(o, r, |o.rows|);
  }
}
