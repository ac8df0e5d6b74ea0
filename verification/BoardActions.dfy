// Applying board proposals (src/ai/ai.service.ts, applyBoardActions): a loop over the distinct
// ids of a request that executes each pending action in scope and settles its row.
module BoardActions {
  import opened Seqs

  datatype ActionStatus = PENDING | COMPLETED | FAILED | CANCELLED

  // onBoard: the type is one of the board's. The scope comes from the action's input.
  datatype Action = Action(tenantId: string, status: ActionStatus, onBoard: bool, projectId: Option<string>,
                           boardId: Option<string>)

  // ran: the ids handed to executeBoardAction so far, in order. done: the ids executed without an
  // exception so far, by applyBoardActions or runAction.
  datatype Db = Db(actions: map<string, Action>, ran: seq<string>, done: seq<string>)

  // succeeds: the actions whose execution does not throw.
  datatype Request = Request(tenant: string, projectId: string, boardId: Option<string>, actionIds: seq<string>,
                             mayView: bool, succeeds: set<string>)

  datatype Verdict = NotFound | OutOfScope | Done | Failed

  datatype Outcome = Outcome(actionId: string, verdict: Verdict)

  // [...new Set(ids)]: each id once, in the order of first appearance.
  function Unique(ids: seq<string>): seq<string>
    decreases |ids|
  {
    if ids == [] then []
    else
      var init, last := Unique(ids[..|ids| - 1]), ids[|ids| - 1];
      if last in init then init else init + [last]
  }

  // The rows the request fetches before its loop.
  predicate Fetched(actions: map<string, Action>, r: Request, id: string) {
    id in actions && actions[id].tenantId == r.tenant && actions[id].status == PENDING && actions[id].onBoard
  }

  predicate InScope(a: Action, r: Request) {
    a.projectId == Some(r.projectId) && !(Given(r.boardId) && Given(a.boardId) && a.boardId != r.boardId)
  }

  predicate Runs(actions: map<string, Action>, r: Request, id: string) {
    Fetched(actions, r, id) && InScope(actions[id], r)
  }

  function VerdictOn(actions: map<string, Action>, r: Request, id: string): Verdict {
    if !Fetched(actions, r, id) then NotFound
    else if !InScope(actions[id], r) then OutOfScope
    else if id in r.succeeds then Done
    else Failed
  }

  function StatusAfter(r: Request, id: string): ActionStatus {
    if id in r.succeeds then COMPLETED else FAILED
  }

  // The tables after one turn of the loop; fetched are the rows read before it.
  function Settled(db: Db, fetched: map<string, Action>, r: Request, id: string): Db {
    if !Runs(fetched, r, id) then db
    else
      Db(db.actions[id := fetched[id].(status := StatusAfter(r, id))], db.ran + [id],
         if id in r.succeeds then db.done + [id] else db.done)
  }

  function ApplyEach(db: Db, fetched: map<string, Action>, r: Request, ids: seq<string>): (Db, seq<Outcome>)
    decreases |ids|
  {
    if ids == [] then (db, [])
    else
      var (before, outcomes) := ApplyEach(db, fetched, r, ids[..|ids| - 1]);
      var id := ids[|ids| - 1];
      (Settled(before, fetched, r, id), outcomes + [Outcome(id, VerdictOn(fetched, r, id))])
  }

  function Apply(db: Db, r: Request): (Db, Option<seq<Outcome>>) {
    if !r.mayView then (db, None)
    else
      var (after, outcomes) := ApplyEach(db, db.actions, r, Unique(r.actionIds));
      (after, Some(outcomes))
  }

  function IsDone(): Outcome -> bool {
    (o: Outcome) => o.verdict == Done
  }

  class Service {
    var actions: map<string, Action>
    var ran: seq<string>
    var done: seq<string>

    function State(): Db
      reads this
    {
      Db(actions, ran, done)
    }

    method UniqueIds(ids: seq<string>) returns (r: seq<string>)
      ensures r == Unique(ids)
    {
      r := [];
      for i := 0 to |ids|
        invariant r == Unique(ids[..i])
      {
        assert ids[..i + 1][..i] == ids[..i];
        if ids[i] !in r {
          r := r + [ids[i]];
        }
      }
      assert ids[..|ids|] == ids;
    }

    method ApplyBoardActions(r: Request) returns (outcomes: Option<seq<Outcome>>, applied: nat, failed: nat)
      modifies this
      ensures (State(), outcomes) == Apply(old(State()), r)
      ensures outcomes.Some? ==> applied == |Filter(outcomes.value, IsDone())| && applied + failed == |outcomes.value|
    {
      if !r.mayView {
        return None, 0, 0;
      }
      var ids := UniqueIds(r.actionIds);
      var fetched := actions;
      var results := [];
      for i := 0 to |ids|
        invariant (State(), results) == ApplyEach(old(State()), fetched, r, ids[..i])
      {
        assert ids[..i + 1][..i] == ids[..i];
        var id := ids[i];
        if !Fetched(fetched, r, id) {
          results := results + [Outcome(id, NotFound)];
        } else if !InScope(fetched[id], r) {
          results := results + [Outcome(id, OutOfScope)];
        } else {
          ran := ran + [id];
          if id in r.succeeds {
            actions := actions[id := fetched[id].(status := COMPLETED)];
            done := done + [id];
            results := results + [Outcome(id, Done)];
          } else {
            actions := actions[id := fetched[id].(status := FAILED)];
            results := results + [Outcome(id, Failed)];
          }
        }
      }
      assert ids[..|ids|] == ids;
      applied := |Filter(results, IsDone())|;
      FilterIsShorter(results, IsDone());
      failed := |results| - applied;
      outcomes := Some(results);
    }
  }

  lemma {:induction false} FilterIsShorter<T>(s: seq<T>, p: T -> bool)
    ensures |Filter(s, p)| <= |s|
  {
    if s != [] {
      FilterIsShorter(s[1..], p);
    }
  }

  // ---------- One request ----------

  lemma {:induction false} UniqueIsTheSet(ids: seq<string>, id: string)
    ensures NoDuplicates(Unique(ids))
    ensures id in Unique(ids) <==> id in ids
    decreases |ids|
  {
    if ids != [] {
      UniqueIsTheSet(ids[..|ids| - 1], id);
      assert ids == ids[..|ids| - 1] + [ids[|ids| - 1]];
    }
  }

  function RunsIn(actions: map<string, Action>, r: Request): string -> bool {
    (id: string) => Runs(actions, r, id)
  }

  function SucceedsIn(actions: map<string, Action>, r: Request): string -> bool {
    (id: string) => Runs(actions, r, id) && id in r.succeeds
  }

  lemma {:induction false} EachIsJudged(db: Db, fetched: map<string, Action>, r: Request, ids: seq<string>, i: nat)
    requires i < |ids|
    ensures var outcomes := ApplyEach(db, fetched, r, ids).1;
            |outcomes| == |ids| && outcomes[i] == Outcome(ids[i], VerdictOn(fetched, r, ids[i]))
    decreases |ids|
  {
    EachLength(db, fetched, r, ids[..|ids| - 1]);
    if i < |ids| - 1 {
      EachIsJudged(db, fetched, r, ids[..|ids| - 1], i);
    }
  }

  lemma {:induction false} EachLength(db: Db, fetched: map<string, Action>, r: Request, ids: seq<string>)
    ensures |ApplyEach(db, fetched, r, ids).1| == |ids|
    decreases |ids|
  {
    if ids != [] {
      EachLength(db, fetched, r, ids[..|ids| - 1]);
    }
  }

  // Every distinct id of the request gets one outcome, in order: not found unless it is a pending
  // board action of the tenant, out of scope unless it is of this project and board, and else
  // what its execution came to.
  lemma OneOutcomePerId(db: Db, r: Request, i: nat)
    requires r.mayView && i < |Unique(r.actionIds)|
    ensures var outcomes := Apply(db, r).1.value;
            |outcomes| == |Unique(r.actionIds)|
            && outcomes[i] == Outcome(Unique(r.actionIds)[i], VerdictOn(db.actions, r, Unique(r.actionIds)[i]))
  {
    EachIsJudged(db, db.actions, r, Unique(r.actionIds), i);
  }

  // What runs: exactly the distinct ids in scope, in order; their rows are settled, and no other
  // row is touched.
  lemma {:induction false} EachRuns(db: Db, r: Request, ids: seq<string>, id: string)
    ensures var after := ApplyEach(db, db.actions, r, ids).0;
            && after.ran == db.ran + Filter(ids, RunsIn(db.actions, r))
            && after.done == db.done + Filter(ids, SucceedsIn(db.actions, r))
    ensures var after := ApplyEach(db, db.actions, r, ids).0;
            if id in ids && Runs(db.actions, r, id) then
              id in after.actions && after.actions[id] == db.actions[id].(status := StatusAfter(r, id))
            else
              (id in after.actions <==> id in db.actions) && (id in db.actions ==> after.actions[id] == db.actions[id])
    decreases |ids|
  {
    if ids != [] {
      var init, last := ids[..|ids| - 1], ids[|ids| - 1];
      EachRuns(db, r, init, id);
      FilterConcat(init, [last], RunsIn(db.actions, r));
      FilterConcat(init, [last], SucceedsIn(db.actions, r));
      assert ids == init + [last];
    }
  }

  // ---------- Runs ----------

  // Propose: a new action, under an id of its own. RunOne and Cancel: runAction and cancelAction;
  // succeeds: the execution does not throw.
  datatype Step =
    | Ask(request: Request)
    | Propose(id: string, action: Action)
    | RunOne(tenant: string, id: string, mayRead: bool, succeeds: bool)
    | Cancel(tenant: string, id: string)

  predicate Own(db: Db, tenant: string, id: string) {
    id in db.actions && db.actions[id].tenantId == tenant
  }

  function WithStatus(db: Db, id: string, status: ActionStatus): Db
    requires id in db.actions
  {
    db.(actions := db.actions[id := db.actions[id].(status := status)])
  }

  // runAction: anything but a completed action is executed, a failed or cancelled one too.
  function RunAction(db: Db, tenant: string, id: string, mayRead: bool, succeeds: bool): Db {
    if !mayRead || !Own(db, tenant, id) || db.actions[id].status == COMPLETED then db
    else if succeeds then WithStatus(db, id, COMPLETED).(done := db.done + [id])
    else WithStatus(db, id, FAILED)
  }

  function CancelAction(db: Db, tenant: string, id: string): Db {
    if !Own(db, tenant, id) || db.actions[id].status != PENDING then db else WithStatus(db, id, CANCELLED)
  }

  function After(db: Db, step: Step): Db {
    match step
    case Ask(r) => Apply(db, r).0
    case Propose(id, action) => if id in db.actions then db else db.(actions := db.actions[id := action])
    case RunOne(tenant, id, mayRead, succeeds) => RunAction(db, tenant, id, mayRead, succeeds)
    case Cancel(tenant, id) => CancelAction(db, tenant, id)
  }

  function Run(db: Db, steps: seq<Step>): Db
    decreases |steps|
  {
    if steps == [] then db else Run(After(db, steps[0]), steps[1..])
  }

  // What the loop has run is settled and was run once; what has succeeded is completed and did so
  // once.
  ghost predicate RanOnce(db: Db) {
    && NoDuplicates(db.ran) && (forall id :: id in db.ran ==> id in db.actions && db.actions[id].status != PENDING)
    && NoDuplicates(db.done) && (forall id :: id in db.done ==> Completed(db, id))
  }

  predicate Completed(db: Db, id: string) {
    id in db.actions && db.actions[id].status == COMPLETED
  }

  lemma {:induction false} FilterKeepsUnique<T>(s: seq<T>, p: T -> bool)
    requires NoDuplicates(s)
    ensures NoDuplicates(Filter(s, p))
  {
    if s != [] {
      FilterKeepsUnique(s[1..], p);
      FilterMember(s[1..], p, s[0]);
    }
  }

  lemma JoinKeepsUnique<T>(s: seq<T>, t: seq<T>)
    requires NoDuplicates(s) && NoDuplicates(t) && forall x :: x in t ==> x !in s
    ensures NoDuplicates(s + t)
  {
    forall i, j | 0 <= i < j < |s + t|
      ensures (s + t)[i] != (s + t)[j]
    {
      if i < |s| && |s| <= j {
        assert s[i] in s && t[j - |s|] in t;
      }
    }
  }

  lemma ApplyKeepsRanOnce(db: Db, r: Request)
    requires RanOnce(db) && r.mayView
    ensures RanOnce(Apply(db, r).0)
  {
    var after := Apply(db, r).0;
    var ids, p, q := Unique(r.actionIds), RunsIn(db.actions, r), SucceedsIn(db.actions, r);
    UniqueIsTheSet(r.actionIds, "");
    FilterKeepsUnique(ids, p);
    FilterKeepsUnique(ids, q);
    EachRuns(db, r, ids, "");
    forall id
      ensures id in Filter(ids, p) ==> id !in db.ran
      ensures id in Filter(ids, q) ==> id !in db.done
      ensures id in after.ran ==> id in after.actions && after.actions[id].status != PENDING
      ensures id in after.done ==> Completed(after, id)
    {
      FilterMember(ids, p, id);
      FilterMember(ids, q, id);
      EachRuns(db, r, ids, id);
    }
    JoinKeepsUnique(db.ran, Filter(ids, p));
    JoinKeepsUnique(db.done, Filter(ids, q));
  }

  lemma StepKeepsRanOnce(db: Db, step: Step)
    requires RanOnce(db)
    ensures RanOnce(After(db, step))
  {
    if step.Ask? && step.request.mayView {
      ApplyKeepsRanOnce(db, step.request);
    } else if step.RunOne? && After(db, step) != db {
      JoinKeepsUnique(db.done, [step.id]);
    }
  }

  // Over any run of requests, proposals, single runs and cancellations, the loop never executes an
  // action twice, and no action succeeds twice, by whichever path.
  lemma {:induction false} NothingRunsTwice(db: Db, steps: seq<Step>)
    requires RanOnce(db)
    ensures NoDuplicates(Run(db, steps).ran) && NoDuplicates(Run(db, steps).done) && RanOnce(Run(db, steps))
    decreases |steps|
  {
    if steps != [] {
      StepKeepsRanOnce(db, steps[0]);
      NothingRunsTwice(After(db, steps[0]), steps[1..]);
    }
  }

  // A completed action stays as it is, over any run.
  lemma {:induction false} CompletedIsFinal(db: Db, steps: seq<Step>, id: string)
    requires Completed(db, id)
    ensures Completed(Run(db, steps), id) && Run(db, steps).actions[id] == db.actions[id]
    decreases |steps|
  {
    if steps != [] {
      if steps[0].Ask? {
        EachRuns(db, steps[0].request, Unique(steps[0].request.actionIds), id);
      }
      CompletedIsFinal(After(db, steps[0]), steps[1..], id);
    }
  }

  // ---------- What counts as pending and in scope ----------

  // A pending board action of the tenant whose input names the project and, as far as both name
  // one, the board.
  predicate IsDue(actions: map<string, Action>, r: Request, id: string) {
    && id in actions && actions[id].tenantId == r.tenant && actions[id].status == PENDING && actions[id].onBoard
    && actions[id].projectId.Some? && actions[id].projectId.value == r.projectId
    && (Given(r.boardId) && Given(actions[id].boardId) ==> actions[id].boardId.value == r.boardId.value)
  }

  // Exactly these run, and the result of every other id says whether it was found at all.
  lemma DueActionsRun(actions: map<string, Action>, r: Request, id: string)
    ensures Runs(actions, r, id) <==> IsDue(actions, r, id)
    ensures VerdictOn(actions, r, id) ==
            if IsDue(actions, r, id) then (if id in r.succeeds then Done else Failed)
            else if id in actions && actions[id].tenantId == r.tenant && actions[id].status == PENDING
                    && actions[id].onBoard then OutOfScope
            else NotFound
  {
  }

  // A single run executes any action of the tenant that is not completed, for one who may read,
  // and settles its row; a cancellation settles a pending one; neither touches another row.
  lemma SingleStepsLeave(db: Db, tenant: string, id: string, mayRead: bool, succeeds: bool)
    ensures var own := id in db.actions && db.actions[id].tenantId == tenant;
            var after := After(db, RunOne(tenant, id, mayRead, succeeds));
            if mayRead && own && db.actions[id].status != COMPLETED then
              after == Db(db.actions[id := db.actions[id].(status := if succeeds then COMPLETED else FAILED)], db.ran,
                          if succeeds then db.done + [id] else db.done)
            else after == db
    ensures var own := id in db.actions && db.actions[id].tenantId == tenant;
            After(db, Cancel(tenant, id)) ==
            if own && db.actions[id].status == PENDING
            then db.(actions := db.actions[id := db.actions[id].(status := CANCELLED)]) else db
  {
  }
}
