// Job branches as refs on a commit graph: what creating and removing worktrees, backup pushes and the cascade's branch
// deletion may do to them. Each check and the change it guards are one step.
module GitBranches {
  import opened Options

  // A commit is known by what it holds, its history included.
  datatype Commit = Commit(content: string, parents: seq<Commit>)

  predicate Ancestor(a: Commit, b: Commit) {
    a == b || exists i :: 0 <= i < |b.parents| && Ancestor(a, b.parents[i])
  }

  lemma {:induction false} AncestorTransitive(a: Commit, b: Commit, c: Commit)
    requires Ancestor(a, b) && Ancestor(b, c)
    ensures Ancestor(a, c)
    decreases c
  {
    if b != c {
      var i :| 0 <= i < |c.parents| && Ancestor(b, c.parents[i]);
      AncestorTransitive(a, b, c.parents[i]);
    }
  }

  type Branch = string

  // The branches of the clone, of the remote, and what the clone last saw of the remote; `main` is the remote's default branch.
  datatype Repo = Repo(main: Branch, local: map<Branch, Commit>, remote: map<Branch, Commit>, tracking: map<Branch, Commit>)

  // How the git commands of one operation end: whether the remote answers, whether the remote's tip is known to the clone,
  // and whether deletions and pushes go through.
  datatype Luck = Luck(answers: bool, known: bool, deletes: bool, pushes: bool, fetches: bool)

  /* ---- checks ---- */

  // The remote branch provably holds everything the local one does; any doubt counts as no.
  predicate TipContained(r: Repo, b: Branch, luck: Luck) {
    && b in r.local && luck.answers && b in r.remote
    && (r.remote[b] == r.local[b] || (luck.known && Ancestor(r.local[b], r.remote[b])))
  }

  predicate MergedIntoMain(r: Repo, b: Branch, luck: Luck) {
    && luck.answers && b in r.remote && r.main in r.tracking && luck.known && Ancestor(r.remote[b], r.tracking[r.main])
  }

  /* ---- steps ---- */

  function Fetch(r: Repo, luck: Luck): Repo { if luck.fetches then r.(tracking := r.remote) else r }

  // A push without force: the remote takes it only as a fast-forward.
  function Push(r: Repo, b: Branch, luck: Luck): Repo {
    if b !in r.local || !luck.pushes || (b in r.tracking && r.tracking[b] == r.local[b]) || (b in r.remote && !Ancestor(r.remote[b], r.local[b])) then r
    else r.(remote := r.remote[b := r.local[b]], tracking := r.tracking[b := r.local[b]])
  }

  function DeleteLocal(r: Repo, b: Branch, luck: Luck): Repo { if luck.deletes then r.(local := r.local - {b}) else r }

  function AddBranch(r: Repo, b: Branch, base: Commit): Repo { if b in r.local then r else r.(local := r.local[b := base]) }

  // A worktree on a fresh branch; an orphan of that name makes way only if the remote has it.
  function CreateFresh(r: Repo, b: Branch, suffixed: Branch, base: Commit, luck: Luck): Repo {
    if !luck.fetches then r
    else
      var r := Fetch(r, luck);
      if b !in r.local then AddBranch(r, b, base)
      else if TipContained(r, b, luck) && luck.deletes then AddBranch(DeleteLocal(r, b, luck), b, base)
      else AddBranch(r, suffixed, base)
  }

  // A worktree on a shared branch: reset to the remote's tip if the remote has the local one, otherwise as it is.
  function CreateReusing(r: Repo, b: Branch, base: Commit, luck: Luck, later: Luck): Repo {
    if !luck.fetches then r
    else
      var r := Fetch(r, luck);
      if b in r.tracking then
        var pushed := if b !in r.local || TipContained(r, b, luck) then r else Push(r, b, luck);
        if b !in r.local || TipContained(r, b, luck) || TipContained(pushed, b, later) then pushed.(local := pushed.local[b := pushed.tracking[b]])
        else pushed
      else AddBranch(r, b, base)
  }

  function Remove(r: Repo, b: Branch, keep: bool, luck: Luck): Repo {
    if keep || b !in r.local || !TipContained(r, b, luck) then r else DeleteLocal(r, b, luck)
  }

  // The remote branch goes only when its tip is merged, and only while it is the expected one.
  function CascadeDelete(r: Repo, b: Branch, expected: Option<Commit>, luck: Luck): Repo {
    if !MergedIntoMain(r, b, luck) || (expected.Some? && r.remote[b] != expected.value) || !luck.deletes then r
    else r.(remote := r.remote - {b}, tracking := r.tracking - {b})
  }

  datatype Step =
    | Work(branch: Branch, tip: Commit)
    | MainMoves(tip: Commit)
    | Refresh(luck: Luck)
    | Fresh(branch: Branch, suffixed: Branch, base: Commit, luck: Luck)
    | Reuse(branch: Branch, base: Commit, luck: Luck, later: Luck)
    | Removal(branch: Branch, keep: bool, luck: Luck)
    | Backup(branch: Branch, luck: Luck)
    | Cascade(branch: Branch, expected: Option<Commit>, luck: Luck)

  // Work adds commits to a local branch, and the remote's default branch only fast-forwards.
  function Next(r: Repo, step: Step): Repo {
    match step
    case Work(b, tip) => if b in r.local && Ancestor(r.local[b], tip) then r.(local := r.local[b := tip]) else r
    case MainMoves(tip) => if r.main in r.remote && Ancestor(r.remote[r.main], tip) then r.(remote := r.remote[r.main := tip]) else r
    case Refresh(luck) => Fetch(r, luck)
    case Fresh(b, suffixed, base, luck) => CreateFresh(r, b, suffixed, base, luck)
    case Reuse(b, base, luck, later) => CreateReusing(r, b, base, luck, later)
    case Removal(b, keep, luck) => Remove(r, b, keep, luck)
    case Backup(b, luck) => Push(r, b, luck)
    case Cascade(b, expected, luck) => CascadeDelete(r, b, expected, luck)
  }

  // The branch a step works for is a job branch, never the remote's default branch.
  predicate ForJob(step: Step, main: Branch) {
    match step
    case Reuse(b, _, _, _) => b != main
    case Backup(b, _) => b != main
    case Cascade(b, _, _) => b != main
    case _ => true
  }

  function Run(r: Repo, steps: seq<Step>): Repo { if |steps| == 0 then r else Next(Run(r, steps[..|steps| - 1]), steps[|steps| - 1]) }

  /* ---- nothing is lost ---- */

  // The commit is in the history of some branch of the clone or of the remote.
  predicate Saved(r: Repo, c: Commit) {
    || (exists b :: b in r.local && Ancestor(c, r.local[b]))
    || (exists b :: b in r.remote && Ancestor(c, r.remote[b]))
  }

  // What the clone last saw of the default branch is part of it.
  predicate SeenMain(r: Repo) { r.main in r.tracking ==> r.main in r.remote && Ancestor(r.tracking[r.main], r.remote[r.main]) }

  ghost predicate Keeps(r: Repo, s: Repo) { forall c :: Saved(r, c) ==> Saved(s, c) }

  // Every branch of r is contained in one of s.
  ghost predicate Covers(r: Repo, s: Repo) {
    && (forall b :: b in r.local ==> Saved(s, r.local[b]))
    && (forall b :: b in r.remote ==> Saved(s, r.remote[b]))
  }

  lemma CoversKeeps(r: Repo, s: Repo)
    requires Covers(r, s)
    ensures Keeps(r, s)
  {
    forall c | Saved(r, c) ensures Saved(s, c) {
      if b :| b in r.local && Ancestor(c, r.local[b]) {
        SavedAncestor(s, c, r.local[b]);
      } else {
        var b :| b in r.remote && Ancestor(c, r.remote[b]);
        SavedAncestor(s, c, r.remote[b]);
      }
    }
  }

  lemma SavedAncestor(s: Repo, c: Commit, tip: Commit)
    requires Saved(s, tip) && Ancestor(c, tip)
    ensures Saved(s, c)
  {
    if b :| b in s.local && Ancestor(tip, s.local[b]) {
      AncestorTransitive(c, tip, s.local[b]);
    } else {
      var b :| b in s.remote && Ancestor(tip, s.remote[b]);
      AncestorTransitive(c, tip, s.remote[b]);
    }
  }

  lemma SavedLocal(s: Repo, b: Branch, c: Commit)
    requires b in s.local && Ancestor(c, s.local[b])
    ensures Saved(s, c)
  {}

  lemma SavedRemote(s: Repo, b: Branch, c: Commit)
    requires b in s.remote && Ancestor(c, s.remote[b])
    ensures Saved(s, c)
  {}

  // A change that touches one local branch covers all, if the old tip of that branch is saved.
  lemma LocalChange(r: Repo, s: Repo, b: Branch)
    requires s.remote == r.remote && (forall x :: x in r.local && x != b ==> x in s.local && s.local[x] == r.local[x])
    requires b in r.local ==> Saved(s, r.local[b])
    ensures Covers(r, s)
  {
    forall x | x in r.local && x != b ensures Saved(s, r.local[x]) { SavedLocal(s, x, r.local[x]); }
    forall x | x in r.remote ensures Saved(s, r.remote[x]) { SavedRemote(s, x, r.remote[x]); }
  }

  lemma RemoteChange(r: Repo, s: Repo, b: Branch)
    requires s.local == r.local && (forall x :: x in r.remote && x != b ==> x in s.remote && s.remote[x] == r.remote[x])
    requires b in r.remote ==> Saved(s, r.remote[b])
    ensures Covers(r, s)
  {
    forall x | x in r.local ensures Saved(s, r.local[x]) { SavedLocal(s, x, r.local[x]); }
    forall x | x in r.remote && x != b ensures Saved(s, r.remote[x]) { SavedRemote(s, x, r.remote[x]); }
  }

  lemma SameRefs(r: Repo, s: Repo)
    requires s.local == r.local && s.remote == r.remote
    ensures Covers(r, s)
  {
    RemoteChange(r, s, r.main);
  }

  lemma KeepsTransitive(r: Repo, s: Repo, t: Repo)
    requires Keeps(r, s) && Keeps(s, t)
    ensures Keeps(r, t)
  {}

  lemma DeleteKeeps(r: Repo, b: Branch, luck: Luck)
    requires TipContained(r, b, luck)
    ensures Keeps(r, DeleteLocal(r, b, luck))
  {
    hide Ancestor;
    var s := DeleteLocal(r, b, luck);
    assert Ancestor(r.local[b], r.remote[b]) by { Reflexive(r.remote[b]); }
    SavedRemote(s, b, r.local[b]);
    if s == r { SameRefs(r, s); } else { LocalChange(r, s, b); }
    CoversKeeps(r, s);
  }

  lemma Reflexive(c: Commit)
    ensures Ancestor(c, c)
  {}

  lemma AddKeeps(r: Repo, b: Branch, base: Commit)
    ensures Keeps(r, AddBranch(r, b, base))
  {
    var s := AddBranch(r, b, base);
    if b in r.local { SavedLocal(s, b, r.local[b]); }
    LocalChange(r, s, b);
    CoversKeeps(r, s);
  }

  lemma PushKeeps(r: Repo, b: Branch, luck: Luck)
    requires b != r.main
    ensures Keeps(r, Push(r, b, luck)) && (SeenMain(r) ==> SeenMain(Push(r, b, luck)))
  {
    hide Ancestor;
    var s := Push(r, b, luck);
    if s == r { SameRefs(r, s); } else {
      if b in r.remote { SavedRemote(s, b, r.remote[b]); }
      RemoteChange(r, s, b);
    }
    CoversKeeps(r, s);
  }

  lemma FetchKeeps(r: Repo, luck: Luck)
    ensures Keeps(r, Fetch(r, luck)) && (SeenMain(r) ==> SeenMain(Fetch(r, luck)))
  {
    SameRefs(r, Fetch(r, luck));
    CoversKeeps(r, Fetch(r, luck));
    if r.main in r.remote { Reflexive(r.remote[r.main]); }
  }

  lemma FreshKeeps(r: Repo, b: Branch, suffixed: Branch, base: Commit, luck: Luck)
    requires SeenMain(r)
    ensures Keeps(r, CreateFresh(r, b, suffixed, base, luck)) && SeenMain(CreateFresh(r, b, suffixed, base, luck))
  {
    hide Ancestor, Keeps, TipContained;
    SameRefs(r, r);
    CoversKeeps(r, r);
    var f := Fetch(r, luck);
    FetchKeeps(r, luck);
    AddKeeps(f, b, base);
    AddKeeps(f, suffixed, base);
    KeepsTransitive(r, f, AddBranch(f, b, base));
    KeepsTransitive(r, f, AddBranch(f, suffixed, base));
    if TipContained(f, b, luck) {
      DeleteKeeps(f, b, luck);
      var d := DeleteLocal(f, b, luck);
      AddKeeps(d, b, base);
      KeepsTransitive(r, f, d);
      KeepsTransitive(r, d, AddBranch(d, b, base));
    }
  }

  lemma ReuseKeeps(r: Repo, b: Branch, base: Commit, luck: Luck, later: Luck)
    requires SeenMain(r) && b != r.main
    ensures Keeps(r, CreateReusing(r, b, base, luck, later)) && SeenMain(CreateReusing(r, b, base, luck, later))
  {
    hide Ancestor, Keeps, TipContained, Push;
    SameRefs(r, r);
    CoversKeeps(r, r);
    var f := Fetch(r, luck);
    FetchKeeps(r, luck);
    AddKeeps(f, b, base);
    KeepsTransitive(r, f, AddBranch(f, b, base));
    if b in f.tracking {
      var p := if b !in f.local || TipContained(f, b, luck) then f else Push(f, b, luck);
      PushKeeps(f, b, luck);
      PushShape(f, b, luck);
      KeepsTransitive(r, f, f) by { SameRefs(f, f); CoversKeeps(f, f); }
      assert Keeps(f, p) by { SameRefs(f, f); CoversKeeps(f, f); }
      KeepsTransitive(r, f, p);
      if b !in f.local || TipContained(f, b, luck) || TipContained(p, b, later) {
        ResetKeeps(p, b, if TipContained(f, b, luck) then luck else later);
        KeepsTransitive(r, p, p.(local := p.local[b := p.tracking[b]]));
      }
    }
  }

  lemma PushShape(r: Repo, b: Branch, luck: Luck)
    ensures var s := Push(r, b, luck); s.local == r.local && s.main == r.main && (b in r.tracking ==> b in s.tracking)
  {}

  lemma ResetKeeps(r: Repo, b: Branch, luck: Luck)
    requires b in r.tracking && (b in r.local ==> TipContained(r, b, luck))
    ensures Keeps(r, r.(local := r.local[b := r.tracking[b]]))
  {
    hide Ancestor;
    var s := r.(local := r.local[b := r.tracking[b]]);
    if b in r.local {
      assert Ancestor(r.local[b], r.remote[b]) by { Reflexive(r.remote[b]); }
      SavedRemote(s, b, r.local[b]);
    }
    LocalChange(r, s, b);
    CoversKeeps(r, s);
  }

  lemma CascadeKeeps(r: Repo, b: Branch, expected: Option<Commit>, luck: Luck)
    requires SeenMain(r) && b != r.main
    ensures Keeps(r, CascadeDelete(r, b, expected, luck)) && SeenMain(CascadeDelete(r, b, expected, luck))
  {
    hide Ancestor;
    var s := CascadeDelete(r, b, expected, luck);
    if s == r { SameRefs(r, s); } else {
      AncestorTransitive(r.remote[b], r.tracking[r.main], r.remote[r.main]);
      SavedRemote(s, r.main, r.remote[b]);
      RemoteChange(r, s, b);
    }
    CoversKeeps(r, s);
  }

  lemma WorkKeeps(r: Repo, b: Branch, tip: Commit)
    requires SeenMain(r)
    ensures Keeps(r, Next(r, Work(b, tip))) && SeenMain(Next(r, Work(b, tip)))
  {
    hide Ancestor;
    var s := Next(r, Work(b, tip));
    if s == r { SameRefs(r, s); } else {
      SavedLocal(s, b, r.local[b]);
      LocalChange(r, s, b);
    }
    CoversKeeps(r, s);
  }

  lemma MainKeeps(r: Repo, tip: Commit)
    requires SeenMain(r)
    ensures Keeps(r, Next(r, MainMoves(tip))) && SeenMain(Next(r, MainMoves(tip)))
  {
    hide Ancestor;
    var t := Next(r, MainMoves(tip));
    if t == r { SameRefs(r, t); } else {
      SavedRemote(t, r.main, r.remote[r.main]);
      RemoteChange(r, t, r.main);
      if r.main in r.tracking { AncestorTransitive(r.tracking[r.main], r.remote[r.main], tip); }
    }
    CoversKeeps(r, t);
  }

  // No step loses a commit.
  lemma NextKeeps(r: Repo, step: Step)
    requires SeenMain(r) && ForJob(step, r.main)
    ensures Keeps(r, Next(r, step)) && SeenMain(Next(r, step)) && Next(r, step).main == r.main
  {
    hide Ancestor, Keeps, SeenMain, TipContained, MergedIntoMain;
    match step
    case Work(b, tip) => WorkKeeps(r, b, tip);
    case MainMoves(tip) => MainKeeps(r, tip);
    case Refresh(luck) => FetchKeeps(r, luck);
    case Fresh(b, suffixed, base, luck) => FreshKeeps(r, b, suffixed, base, luck);
    case Reuse(b, base, luck, later) => ReuseKeeps(r, b, base, luck, later);
    case Removal(b, keep, luck) => RemovalKeeps(r, b, keep, luck);
    case Backup(b, luck) => PushKeeps(r, b, luck);
    case Cascade(b, expected, luck) => CascadeKeeps(r, b, expected, luck);
  }

  lemma RemovalKeeps(r: Repo, b: Branch, keep: bool, luck: Luck)
    requires SeenMain(r)
    ensures Keeps(r, Remove(r, b, keep, luck)) && SeenMain(Remove(r, b, keep, luck))
  {
    hide Ancestor, TipContained;
    SameRefs(r, r);
    CoversKeeps(r, r);
    if TipContained(r, b, luck) { DeleteKeeps(r, b, luck); }
  }

  // Over any run of these steps, every commit some branch of the clone or of the remote leads to stays one.
  lemma {:induction false} NothingIsLost(r: Repo, steps: seq<Step>)
    requires SeenMain(r) && forall i :: 0 <= i < |steps| ==> ForJob(steps[i], r.main)
    ensures var s := Run(r, steps); SeenMain(s) && s.main == r.main && forall c :: Saved(r, c) ==> Saved(s, c)
  {
    hide Next, SeenMain, Saved;
    assert Keeps(r, r);
    if |steps| > 0 {
      var before := steps[..|steps| - 1];
      NothingIsLost(r, before);
      NextKeeps(Run(r, before), steps[|steps| - 1]);
      assert Keeps(r, Run(r, before));
      KeepsTransitive(r, Run(r, before), Run(r, steps));
    }
  }

  // That the branch is no default branch is needed: cascading over the default branch itself deletes it, work and all.
  lemma CascadeOverMainLoses(main: Branch, tip: Commit)
    ensures var r := Repo(main, map[], map[main := tip], map[main := tip]);
            SeenMain(r) && Saved(r, tip) && !Saved(CascadeDelete(r, main, None, Luck(true, true, true, true, true)), tip)
  {
    var r := Repo(main, map[], map[main := tip], map[main := tip]);
    Reflexive(tip);
    SavedRemote(r, main, tip);
  }

  /* ---- the operations as they run ---- */

  class Clone {
    const main: Branch
    var local: map<Branch, Commit>
    var remote: map<Branch, Commit>
    var tracking: map<Branch, Commit>

    function Value(): Repo reads this { Repo(main, local, remote, tracking) }

    constructor (main: Branch, remote: map<Branch, Commit>)
      ensures Value() == Repo(main, map[], remote, remote)
    {
      this.main := main;
      this.remote, local, tracking := remote, map[], remote;
    }

    method DeleteBranch(b: Branch, luck: Luck) returns (ok: bool)
      modifies this
      ensures Value() == DeleteLocal(old(Value()), b, luck) && ok == luck.deletes
    {
      if luck.deletes { local := local - {b}; }
      return luck.deletes;
    }

    // A branch that is not known to be there arrives exactly when the push goes through and the remote has nothing else.
    method PushBranch(b: Branch, luck: Luck)
      modifies this
      ensures Value() == Push(old(Value()), b, luck)
      ensures local == old(local) && (remote == old(remote) || (b in local && remote == old(remote)[b := local[b]]))
      ensures b in local && !(b in old(tracking) && old(tracking)[b] == local[b]) ==>
                (b in remote && remote[b] == local[b] <==>
                   || (b in old(remote) && old(remote)[b] == local[b])
                   || (luck.pushes && (b in old(remote) ==> Ancestor(old(remote)[b], local[b]))))
    {
      if b !in local { return; }
      var tip := local[b];
      if b in tracking && tracking[b] == tip { return; }
      if !luck.pushes || (b in remote && !Ancestor(remote[b], tip)) { return; }
      remote := remote[b := tip];
      tracking := tracking[b := tip];
    }

    // The branch a worktree was made on; none when git refused.
    method CreateWorktree(branch: Branch, suffixed: Branch, base: Commit, reuse: bool, luck: Luck, later: Luck) returns (made: Option<Branch>)
      modifies this
      ensures Value() == if reuse then CreateReusing(old(Value()), branch, base, luck, later) else CreateFresh(old(Value()), branch, suffixed, base, luck)
      ensures made.Some? ==> made.value in local && (reuse ==> made.value == branch)
      ensures made.Some? && !reuse ==> local[made.value] == base && (made.value == suffixed ==> suffixed !in old(local) || suffixed == branch)
      // A shared branch is there whenever git answers: at the remote's tip if the remote has all of it, and otherwise at its own or, once that
      // is pushed, at the remote's. A fresh one is there under its own name if that is free or safely freed, and else under the other.
      ensures reuse ==> (made.Some? <==> luck.fetches)
      ensures reuse && made.Some? ==>
                if branch !in old(remote) then local[branch] == (if branch in old(local) then old(local)[branch] else base)
                else if branch !in old(local) || TipContained(old(Value()), branch, luck) then local[branch] == old(remote)[branch]
                else local[branch] == old(local)[branch] || (branch in remote && local[branch] == remote[branch])
      ensures !reuse ==> (made == Some(branch) <==> luck.fetches && (branch !in old(local) || (TipContained(old(Value()), branch, luck) && luck.deletes)))
      ensures !reuse && made != Some(branch) ==> (made.Some? <==> luck.fetches && suffixed !in old(local))
    {
      if !luck.fetches { return None; }
      tracking := remote;
      var name := branch;
      if reuse {
        if branch in tracking {
          var canReset := branch !in local;
          if !canReset { canReset := TipContained(Value(), branch, luck); }
          if !canReset {
            PushBranch(branch, luck);
            canReset := TipContained(Value(), branch, later);
          }
          if canReset { local := local[branch := tracking[branch]]; }
        } else if branch !in local {
          local := local[branch := base];
        }
        return Some(branch);
      }
      if branch in local {
        if TipContained(Value(), branch, luck) {
          var deleted := DeleteBranch(branch, luck);
          if !deleted { name := suffixed; }
        } else {
          name := suffixed;
        }
      }
      if name in local { return None; }
      local := local[name := base];
      return Some(name);
    }

    method RemoveWorktree(b: Branch, keep: bool, luck: Luck)
      modifies this
      ensures Value() == Remove(old(Value()), b, keep, luck)
      // The local branch goes exactly when the remote has its tip, and git answers.
      ensures remote == old(remote) && tracking == old(tracking) && local in {old(local), old(local) - {b}}
      ensures b in local <==> b in old(local) && (keep || !luck.deletes || !TipContained(old(Value()), b, luck))
    {
      if keep || b !in local { return; }
      if TipContained(Value(), b, luck) { var _ := DeleteBranch(b, luck); }
    }

    method TryDeleteBranch(b: Branch, expected: Option<Commit>, luck: Luck) returns (deleted: bool)
      modifies this
      ensures Value() == CascadeDelete(old(Value()), b, expected, luck)
      // It goes exactly when its tip is merged and the expected one, and git answers.
      ensures deleted <==>
                && b in old(remote) && luck.answers && luck.known && luck.deletes && main in old(tracking) && Ancestor(old(remote)[b], old(tracking)[main])
                && (expected.Some? ==> old(remote)[b] == expected.value)
      ensures local == old(local) && remote == if deleted then old(remote) - {b} else old(remote)
    {
      if !MergedIntoMain(Value(), b, luck) { return false; }
      if expected.Some? && remote[b] != expected.value { return false; }
      if !luck.deletes { return false; }
      remote := remote - {b};
      tracking := tracking - {b};
      return true;
    }
  }
}
