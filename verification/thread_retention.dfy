// Terminal retention: whole threads move from the hot message table to the archive, and nothing is lost on the way.
module ThreadRetention {
  import opened QueueProjection

  // What the dispatch database says about a request whose thread may be retained.
  datatype Candidate = Candidate(request: nat, terminal: bool, settled: bool, recovered: bool, unpublished: bool)

  predicate Due(c: Candidate) { c.terminal && c.settled && !c.recovered && !c.unpublished }

  predicate OfThread(m: Message, request: nat) { m.owner.Owner? && m.owner.request == request }

  function ThreadIds(hot: map<nat, Message>, request: nat): set<nat> { set id | id in hot && OfThread(hot[id], request) }

  predicate ThreadHandled(hot: map<nat, Message>, request: nat) {
    forall id :: id in hot && OfThread(hot[id], request) ==> Handled(hot[id].status)
  }

  // Every reply in the table stands under a root of its request.
  predicate NoOrphan(hot: map<nat, Message>) {
    forall id :: id in hot && hot[id].owner.Owner? && hot[id].owner.role == ReplyRole ==>
                   exists root :: root in hot && hot[root].owner == Owner(hot[id].owner.request, RootRole)
  }

  // Hot and archived messages together are what they were: nothing is lost, changed or invented.
  ghost predicate Conserved(hot: map<nat, Message>, archive: map<nat, Message>, hot': map<nat, Message>, archive': map<nat, Message>) {
    && (forall id :: id in hot ==> (id in hot' && hot'[id] == hot[id]) || (id in archive' && archive'[id] == hot[id]))
    && (forall id :: id in archive ==> id in archive' && archive'[id] == archive[id])
    && (forall id :: id in hot' ==> id in hot && hot'[id] == hot[id])
    && (forall id :: id in archive' ==> (id in archive && archive'[id] == archive[id]) || (id in hot && archive'[id] == hot[id]))
  }

  // A thread is where it was, or it has left the hot table whole.
  ghost predicate WholeThread(hot: map<nat, Message>, hot': map<nat, Message>, request: nat) {
    || (forall id :: id in hot && OfThread(hot[id], request) ==> id in hot' && hot'[id] == hot[id])
    || (forall id :: id in hot' ==> !OfThread(hot'[id], request))
  }

  class RetentionStore {
    var hot: map<nat, Message>
    var archive: map<nat, Message>

    // What retention may do to the two tables for the given requests.
    twostate predicate Retained(requests: seq<Candidate>)
      reads this
    {
      && Conserved(old(hot), old(archive), hot, archive)
      && (forall r :: WholeThread(old(hot), hot, r))
      && (forall id :: id in old(hot) && id !in hot ==> Handled(old(hot)[id].status) && Moved(requests, old(hot)[id]))
      && (old(NoOrphan(hot)) ==> NoOrphan(hot))
    }

    // Rows of one role of a thread leave the hot table.
    method DeleteRole(request: nat, role: Role)
      requires role == RootRole ==> forall id :: id in hot && OfThread(hot[id], request) ==> hot[id].owner.role == RootRole
      modifies this`hot
      ensures hot == map id | id in old(hot) && old(hot)[id].owner != Owner(request, role) :: old(hot)[id]
      ensures old(NoOrphan(hot)) ==> NoOrphan(hot)
    {
      ghost var was := hot;
      hot := map id | id in hot && hot[id].owner != Owner(request, role) :: hot[id];
      if NoOrphan(was) {
        forall id | id in hot && hot[id].owner.Owner? && hot[id].owner.role == ReplyRole
          ensures exists root :: root in hot && hot[root].owner == Owner(hot[id].owner.request, RootRole)
        {
          var root :| root in was && was[root].owner == Owner(was[id].owner.request, RootRole);
          assert root in hot;
        }
      }
    }

    // One thread in one queue transaction: copy, compare, and only then delete, the reply before its root.
    method RetainThread(request: nat) returns (moved: bool, refused: bool)
      modifies this
      ensures moved ==> !refused && |ThreadIds(old(hot), request)| > 0 && ThreadHandled(old(hot), request)
                        && hot == (map id | id in old(hot) && !OfThread(old(hot)[id], request) :: old(hot)[id])
                        && forall id :: id in archive && id !in old(archive) ==> id in ThreadIds(old(hot), request)
      ensures !moved ==> hot == old(hot) && archive == old(archive)
      ensures refused <==> |ThreadIds(old(hot), request)| > 0 && ThreadHandled(old(hot), request)
                           && exists id :: id in old(hot) && OfThread(old(hot)[id], request) && id in old(archive) && old(archive)[id] != old(hot)[id]
      ensures (moved <==> Movable(old(hot), old(archive), request)) && (refused <==> Refusable(old(hot), old(archive), request))
      ensures Conserved(old(hot), old(archive), hot, archive) && (old(NoOrphan(hot)) ==> NoOrphan(hot))
    {
      var thread := ThreadIds(hot, request);
      if thread == {} || !ThreadHandled(hot, request) { return false, false; }
      var begun := archive;
      archive := map id | id in archive.Keys + thread :: if id in archive then archive[id] else hot[id];
      var same := set id | id in thread && archive[id] == hot[id];
      assert same <= thread;
      assert (forall id :: id in thread && id in begun ==> begun[id] == hot[id]) ==> same == thread;
      if |same| != |thread| {
        archive := begun;
        return false, true;
      }
      Full(same, thread);
      DeleteRole(request, ReplyRole);
      DeleteRole(request, RootRole);
      return true, false;
    }

    // One pass over the due requests. Of these, every thread that is handled and that the archive does not contradict moves, and no
    // other; a contradicted one is refused each time it is met.
    method RetainTerminalThreads(candidates: seq<Candidate>) returns (archived: nat, refused: nat)
      modifies this
      ensures Retained(candidates) && archived + refused <= |candidates|
      ensures archived == 0 ==> hot == old(hot) && archive == old(archive)
      ensures forall r :: if r in Movables(candidates, |candidates|, old(hot), old(archive)) then ThreadIds(hot, r) == {}
                          else ThreadIds(hot, r) == ThreadIds(old(hot), r)
      ensures archived == |Movables(candidates, |candidates|, old(hot), old(archive))|
      ensures refused == Refusals(candidates, |candidates|, old(hot), old(archive))
    {
      hide Movable, Refusable, Swept, Conserved, ThreadIds, ThreadHandled, Movables, Refusals;
      archived, refused := 0, 0;
      NothingSwept(candidates, hot, archive);
      for k := 0 to |candidates|
        invariant Swept(Movables(candidates, k, old(hot), old(archive)), old(hot), old(archive), hot, archive)
        invariant archived == |Movables(candidates, k, old(hot), old(archive))| && archived + refused <= k
        invariant refused == Refusals(candidates, k, old(hot), old(archive))
      {
        ghost var gone := Movables(candidates, k, old(hot), old(archive));
        MovablesGrow(candidates, k, old(hot), old(archive));
        if Due(candidates[k]) {
          label before:
          var r := candidates[k].request;
          StillJudged(gone, old(hot), old(archive), hot, archive, r);
          OnceMovable(candidates, k, old(hot), old(archive), r);
          if r in gone { assert gone + {r} == gone; }
          var moved, refusal := RetainThread(r);
          if moved {
            archived := archived + 1;
            SweptFurther(gone, old(hot), old(archive), old@before(hot), old@before(archive), hot, archive, r);
          }
          if refusal { refused := refused + 1; }
        }
      }
      SweptIsRetained(candidates, old(hot), old(archive), hot, archive);
    }
  }

  // The archive holds something else under an id of the thread.
  predicate Contradicted(hot: map<nat, Message>, archive: map<nat, Message>, request: nat) {
    exists id :: id in hot && OfThread(hot[id], request) && id in archive && archive[id] != hot[id]
  }

  // The thread is there, handled, and not contradicted.
  predicate Movable(hot: map<nat, Message>, archive: map<nat, Message>, request: nat) {
    ThreadIds(hot, request) != {} && ThreadHandled(hot, request) && !Contradicted(hot, archive, request)
  }

  // The thread is there and handled, but contradicted.
  predicate Refusable(hot: map<nat, Message>, archive: map<nat, Message>, request: nat) {
    ThreadIds(hot, request) != {} && ThreadHandled(hot, request) && Contradicted(hot, archive, request)
  }

  // The requests due among the first k whose threads can move, and how often one that is contradicted is met.
  function Movables(candidates: seq<Candidate>, k: nat, hot: map<nat, Message>, archive: map<nat, Message>): set<nat>
    requires k <= |candidates|
  {
    set i: nat | i < k && Due(candidates[i]) && Movable(hot, archive, candidates[i].request) :: candidates[i].request
  }

  function Refusals(candidates: seq<Candidate>, k: nat, hot: map<nat, Message>, archive: map<nat, Message>): nat
    requires k <= |candidates|
  {
    if k == 0 then 0
    else
      var c := candidates[k - 1];
      Refusals(candidates, k - 1, hot, archive)
      + if Due(c) && Refusable(hot, archive, c.request) then 1 else 0
  }

  lemma MovablesGrow(candidates: seq<Candidate>, k: nat, hot: map<nat, Message>, archive: map<nat, Message>)
    requires k < |candidates|
    ensures var c := candidates[k];
            Movables(candidates, k + 1, hot, archive)
            == if Due(c) && Movable(hot, archive, c.request) then Movables(candidates, k, hot, archive) + {c.request} else Movables(candidates, k, hot, archive)
    ensures var c := candidates[k];
            Refusals(candidates, k + 1, hot, archive) == Refusals(candidates, k, hot, archive) + if Due(c) && Refusable(hot, archive, c.request) then 1 else 0
  {
    hide Movable, Refusable;
    var c := candidates[k];
    var was, now := Movables(candidates, k, hot, archive), Movables(candidates, k + 1, hot, archive);
    forall r | r in now ensures r in was || (r == c.request && Due(c) && Movable(hot, archive, c.request)) {
      var i: nat :| i < k + 1 && Due(candidates[i]) && Movable(hot, archive, candidates[i].request) && candidates[i].request == r;
    }
    forall r | r in was ensures r in now {
      var i: nat :| i < k && Due(candidates[i]) && Movable(hot, archive, candidates[i].request) && candidates[i].request == r;
    }
  }

  // Exactly these threads have left, and the archive has got nothing but them.
  ghost predicate Swept(gone: set<nat>, hot: map<nat, Message>, archive: map<nat, Message>, hot': map<nat, Message>, archive': map<nat, Message>) {
    && (forall id :: id in hot' <==> id in hot && !(hot[id].owner.Owner? && hot[id].owner.request in gone))
    && (forall id :: id in hot' ==> hot'[id] == hot[id])
    && (forall id :: id in archive' && id !in archive ==> id in hot && id !in hot')
    && (forall id :: id in hot && id !in hot' ==> id in archive' && archive'[id] == hot[id])
    && (forall id :: id in archive ==> id in archive' && archive'[id] == archive[id])
  }

  // A thread that has not left is judged as it was, and one that has left is no longer there.
  lemma StillJudged(gone: set<nat>, hot: map<nat, Message>, archive: map<nat, Message>, hot': map<nat, Message>, archive': map<nat, Message>, r: nat)
    requires Swept(gone, hot, archive, hot', archive')
    ensures ThreadIds(hot', r) == if r in gone then {} else ThreadIds(hot, r)
    ensures Movable(hot', archive', r) <==> r !in gone && Movable(hot, archive, r)
    ensures Refusable(hot', archive', r) <==> r !in gone && Refusable(hot, archive, r)
  {
    if r !in gone {
      assert forall id :: id in hot && OfThread(hot[id], r) ==> id in hot' && hot'[id] == hot[id];
      assert forall id :: id in hot' && OfThread(hot'[id], r) ==> id in hot && hot'[id] == hot[id];
    }
  }

  lemma OnceMovable(candidates: seq<Candidate>, k: nat, hot: map<nat, Message>, archive: map<nat, Message>, r: nat)
    requires k <= |candidates|
    ensures r in Movables(candidates, k, hot, archive) ==> Movable(hot, archive, r) && !Refusable(hot, archive, r)
  {
    hide Contradicted, ThreadIds, ThreadHandled;
  }

  lemma SweptFurther(gone: set<nat>, hot: map<nat, Message>, archive: map<nat, Message>, hot': map<nat, Message>, archive': map<nat, Message>,
                     hot'': map<nat, Message>, archive'': map<nat, Message>, r: nat)
    requires Swept(gone, hot, archive, hot', archive') && Conserved(hot', archive', hot'', archive'')
    requires hot'' == map id | id in hot' && !OfThread(hot'[id], r) :: hot'[id]
    requires forall id :: id in archive'' && id !in archive' ==> id in ThreadIds(hot', r)
    ensures Swept(gone + {r}, hot, archive, hot'', archive'')
  {}

  lemma NothingSwept(candidates: seq<Candidate>, hot: map<nat, Message>, archive: map<nat, Message>)
    ensures Movables(candidates, 0, hot, archive) == {} && Refusals(candidates, 0, hot, archive) == 0 && Swept({}, hot, archive, hot, archive)
  {
    hide Movable;
  }

  lemma SweptConserves(gone: set<nat>, hot: map<nat, Message>, archive: map<nat, Message>, hot': map<nat, Message>, archive': map<nat, Message>)
    requires Swept(gone, hot, archive, hot', archive')
    ensures Conserved(hot, archive, hot', archive')
    ensures gone == {} ==> hot' == hot && archive' == archive
  {}

  lemma SweptWhole(gone: set<nat>, hot: map<nat, Message>, archive: map<nat, Message>, hot': map<nat, Message>, archive': map<nat, Message>, r: nat)
    requires Swept(gone, hot, archive, hot', archive')
    ensures WholeThread(hot, hot', r)
  {
    if r in gone { assert forall id :: id in hot' ==> !OfThread(hot'[id], r); }
  }

  // What a sweep of the movable threads leaves: whole threads, each of them handled and due, and nothing lost.
  lemma SweptIsRetained(candidates: seq<Candidate>, hot: map<nat, Message>, archive: map<nat, Message>, hot': map<nat, Message>, archive': map<nat, Message>)
    requires Swept(Movables(candidates, |candidates|, hot, archive), hot, archive, hot', archive')
    ensures Conserved(hot, archive, hot', archive') && forall r :: WholeThread(hot, hot', r)
    ensures forall id :: id in hot && id !in hot' ==> Handled(hot[id].status) && Moved(candidates, hot[id])
    ensures NoOrphan(hot) ==> NoOrphan(hot')
    ensures Movables(candidates, |candidates|, hot, archive) == {} ==> hot' == hot && archive' == archive
    ensures forall r :: ThreadIds(hot', r) == if r in Movables(candidates, |candidates|, hot, archive) then {} else ThreadIds(hot, r)
  {
    hide Contradicted, Conserved, WholeThread, Swept, Refusable, Movables, Movable;
    var gone := Movables(candidates, |candidates|, hot, archive);
    SweptConserves(gone, hot, archive, hot', archive');
    forall r ensures WholeThread(hot, hot', r) && ThreadIds(hot', r) == if r in gone then {} else ThreadIds(hot, r) {
      SweptWhole(gone, hot, archive, hot', archive', r);
      StillJudged(gone, hot, archive, hot', archive', r);
    }
    forall id | id in hot && id !in hot' ensures Handled(hot[id].status) && Moved(candidates, hot[id]) { LeftIsDue(candidates, hot, archive, hot', archive', id); }
    if NoOrphan(hot) { StillRooted(gone, hot, archive, hot', archive'); }
  }

  lemma LeftIsDue(candidates: seq<Candidate>, hot: map<nat, Message>, archive: map<nat, Message>, hot': map<nat, Message>, archive': map<nat, Message>, id: nat)
    requires Swept(Movables(candidates, |candidates|, hot, archive), hot, archive, hot', archive') && id in hot && id !in hot'
    ensures Handled(hot[id].status) && Moved(candidates, hot[id])
  {
    hide Contradicted, ThreadIds;
    var i: nat :| i < |candidates| && Due(candidates[i]) && Movable(hot, archive, candidates[i].request) && candidates[i].request == hot[id].owner.request;
  }

  lemma StillRooted(gone: set<nat>, hot: map<nat, Message>, archive: map<nat, Message>, hot': map<nat, Message>, archive': map<nat, Message>)
    requires Swept(gone, hot, archive, hot', archive') && NoOrphan(hot)
    ensures NoOrphan(hot')
  {
    forall id | id in hot' && hot'[id].owner.Owner? && hot'[id].owner.role == ReplyRole
      ensures exists root :: root in hot' && hot'[root].owner == Owner(hot'[id].owner.request, RootRole)
    {
      var root :| root in hot && hot[root].owner == Owner(hot[id].owner.request, RootRole);
      assert root in hot';
    }
  }

  // The message belongs to a thread that is due.
  predicate Moved(candidates: seq<Candidate>, m: Message) {
    exists k :: 0 <= k < |candidates| && Due(candidates[k]) && OfThread(m, candidates[k].request)
  }

  lemma Full(part: set<nat>, whole: set<nat>)
    requires part <= whole && |part| == |whole|
    ensures part == whole
  {
    if part != whole {
      var x :| x in whole && x !in part;
      FullCard(part, whole - {x});
    }
  }

  lemma {:induction false} FullCard(part: set<nat>, whole: set<nat>)
    requires part <= whole
    ensures |part| <= |whole|
  {
    if part != {} {
      var x :| x in part;
      FullCard(part - {x}, whole - {x});
    }
  }
}
