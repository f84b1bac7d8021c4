/** The requests to start, terminate, restart and delete children refine a map from identifiers to "up" or "off". */
module SupervisorRequests {
  import opened Types
  import opened Children
  import opened Supervision
  import opened SupervisorLists

  // ---------------------------------------------------------------- the abstract machine

  datatype Status = Up(pid: Pid) | Off

  type Table = map<string, Status>

  datatype Entered = Entered(table: Table, answer: Answer)

  /** What a start does to the entry `id`; `born` is the number of a process that did not exist before. */
  function EnterStarted(m: Table, id: string, start: Start, born: Pid): Entered {
    match start
    case StartOk => Entered(m[id := Up(born)], Fine(born))
    case StartIgnore => Entered(m[id := Off], Fine(UNDEFINED))
    case StartFail(why) => Entered(m, StartFailed(why))
  }

  /** The requests on the table. */
  function Enter(m: Table, request: Request, start: Start, born: Pid): Entered {
    match request
    case StartIt(id, _) =>
      if id !in m then EnterStarted(m, id, start, born)
      else Entered(m, if m[id].Up? then AlreadyStarted(m[id].pid) else AlreadyPresent)
    case TerminateIt(id) => if id !in m then Entered(m, NotFound) else Entered(m[id := Off], Fine(UNDEFINED))
    case RestartIt(id) =>
      if id !in m then Entered(m, NotFound)
      else if m[id].Up? then Entered(m, StillRunning)
      else EnterStarted(m, id, start, born)
    case DeleteIt(id) =>
      if id !in m then Entered(m, NotFound)
      else if m[id].Up? then Entered(m, StillRunning)
      else Entered(m - {id}, Fine(UNDEFINED))
  }

  /** Only the processes in `alive` are left. */
  function Settle(m: Table, alive: set<Pid>): Table {
    map id | id in m :: if m[id].Up? && m[id].pid !in alive then Off else m[id]
  }

  // ---------------------------------------------------------------- the table of a supervisor

  predicate Has(cs: seq<Child>, id: string) {
    Position(cs, id) < |cs|
  }

  function StatusOf(alive: set<Pid>, cs: seq<Child>, id: string): Status
    requires Has(cs, id)
  {
    var pid := cs[Position(cs, id)].pid;
    if pid in alive then Up(pid) else Off
  }

  function TableOf(alive: set<Pid>, cs: seq<Child>): Table {
    map id | id in Ids(cs) && Has(cs, id) :: StatusOf(alive, cs, id)
  }

  /** All process numbers in the list have been given out. */
  ghost predicate Issued(cs: seq<Child>, next: Pid) {
    forall c :: c in cs ==> c.pid < next
  }

  ghost predicate FlagsAgree(alive: set<Pid>, cs: seq<Child>) {
    forall c :: c in cs && (c.terminated || c.ignored) ==> c.pid !in alive
  }

  /** No two children share a process. */
  ghost predicate Unshared(alive: set<Pid>, cs: seq<Child>) {
    forall i, j :: 0 <= i < j < |cs| && cs[i].pid == cs[j].pid ==> cs[i].pid !in alive
  }

  ghost predicate Consistent(w: World, cs: seq<Child>) {
    Sane(w) && DistinctIds(cs) && Issued(cs, w.next) && FlagsAgree(w.alive, cs) && Unshared(w.alive, cs)
  }

  lemma HasIsListed(cs: seq<Child>, id: string)
    ensures Has(cs, id) <==> id in Ids(cs)
  {
    var k := Position(cs, id);
    if k < |cs| {
      assert Ids(cs)[k] == id;
    }
  }

  lemma AtPosition(cs: seq<Child>, k: nat)
    requires DistinctIds(cs) && k < |cs|
    ensures Has(cs, cs[k].id) && Position(cs, cs[k].id) == k && cs[k].id in Ids(cs)
  {
    var p := Position(cs, cs[k].id);
    assert Ids(cs)[k] == cs[k].id;
  }

  /** An entry of the table, read off the list. */
  lemma EntryAt(alive: set<Pid>, cs: seq<Child>, k: nat)
    requires DistinctIds(cs) && k < |cs|
    ensures cs[k].id in TableOf(alive, cs)
    ensures TableOf(alive, cs)[cs[k].id] == if cs[k].pid in alive then Up(cs[k].pid) else Off
  {
    AtPosition(cs, k);
  }

  /** Two lists with the same identifiers in the same places, except perhaps for the processes. */
  lemma SameTable(alive: set<Pid>, cs: seq<Child>, m: Table)
    requires DistinctIds(cs)
    requires forall id :: id in m ==> id in Ids(cs)
    requires forall k :: 0 <= k < |cs| ==>
               cs[k].id in m && m[cs[k].id] == if cs[k].pid in alive then Up(cs[k].pid) else Off
    ensures TableOf(alive, cs) == m
  {
    var t := TableOf(alive, cs);
    forall id | id in t
      ensures id in m && t[id] == m[id]
    {
      var k := Position(cs, id);
      assert cs[k].id == id;
    }
    forall id | id in m
      ensures id in t
    {
      HasIsListed(cs, id);
    }
  }

  /** Death, and the birth of the next process, which no child of the list is. */
  lemma SettleTable(w: World, now: set<Pid>, cs: seq<Child>)
    requires DistinctIds(cs) && Issued(cs, w.next) && now <= w.alive + {w.next}
    ensures Settle(TableOf(w.alive, cs), now) == TableOf(now, cs)
  {
    forall k | 0 <= k < |cs|
      ensures cs[k].id in TableOf(w.alive, cs)
      ensures Settle(TableOf(w.alive, cs), now)[cs[k].id] == if cs[k].pid in now then Up(cs[k].pid) else Off
    {
      EntryAt(w.alive, cs, k);
      assert cs[k] in cs;
    }
    SameTable(now, cs, Settle(TableOf(w.alive, cs), now));
  }

  // ---------------------------------------------------------------- changes of the list

  /** Child `k` was replaced by one with the same identifier. */
  lemma ReplacedTable(alive: set<Pid>, cs: seq<Child>, k: nat, c: Child)
    requires DistinctIds(cs) && k < |cs| && c.id == cs[k].id
    ensures DistinctIds(cs[k := c])
    ensures TableOf(alive, cs[k := c]) == TableOf(alive, cs)[c.id := if c.pid in alive then Up(c.pid) else Off]
  {
    var ds := cs[k := c];
    var m := TableOf(alive, cs)[c.id := if c.pid in alive then Up(c.pid) else Off];
    assert forall i :: 0 <= i < |cs| ==> ds[i].id == cs[i].id;
    assert Ids(ds) == Ids(cs);
    forall i | 0 <= i < |ds|
      ensures ds[i].id in m && m[ds[i].id] == if ds[i].pid in alive then Up(ds[i].pid) else Off
    {
      EntryAt(alive, cs, i);
    }
    AtPosition(cs, k);
    SameTable(alive, ds, m);
  }

  lemma AppendedTable(alive: set<Pid>, cs: seq<Child>, c: Child)
    requires DistinctIds(cs) && !Has(cs, c.id)
    ensures DistinctIds(cs + [c])
    ensures TableOf(alive, cs + [c]) == TableOf(alive, cs)[c.id := if c.pid in alive then Up(c.pid) else Off]
  {
    var ds := cs + [c];
    var m := TableOf(alive, cs)[c.id := if c.pid in alive then Up(c.pid) else Off];
    assert Ids(ds) == Ids(cs) + [c.id];
    forall i | 0 <= i < |ds|
      ensures ds[i].id in m && m[ds[i].id] == if ds[i].pid in alive then Up(ds[i].pid) else Off
    {
      if i < |cs| {
        EntryAt(alive, cs, i);
      }
    }
    SameTable(alive, ds, m);
  }

  lemma {:induction false} WithoutDistinct(cs: seq<Child>, id: string)
    requires DistinctIds(cs)
    ensures DistinctIds(Without(cs, id))
    ensures forall c :: c in Without(cs, id) <==> c in cs && c.id != id
  {
    WithoutThins(cs, id);
    IdsDistinct(cs);
    IdsDistinct(Without(cs, id));
    ThinnedDistinct(Ids(Without(cs, id)), Ids(cs));
  }

  lemma DeletedEntries(alive: set<Pid>, cs: seq<Child>, id: string, i: nat)
    requires DistinctIds(cs) && i < |Without(cs, id)|
    ensures var d := Without(cs, id)[i];
            var m := TableOf(alive, cs) - {id};
            d.id in m && m[d.id] == if d.pid in alive then Up(d.pid) else Off
  {
    WithoutDistinct(cs, id);
    var d := Without(cs, id)[i];
    assert d in Without(cs, id);
    var j :| 0 <= j < |cs| && cs[j] == d;
    EntryAt(alive, cs, j);
  }

  lemma DeletedKeys(cs: seq<Child>, id: string, x: string)
    requires DistinctIds(cs) && x in Ids(cs) && x != id
    ensures x in Ids(Without(cs, id))
  {
    WithoutDistinct(cs, id);
    var ds := Without(cs, id);
    var j :| 0 <= j < |cs| && cs[j].id == x;
    assert cs[j] in cs && cs[j] in ds;
    var i :| 0 <= i < |ds| && ds[i] == cs[j];
    assert Ids(ds)[i] == x;
  }

  lemma DeletedTable(alive: set<Pid>, cs: seq<Child>, id: string)
    requires DistinctIds(cs)
    ensures DistinctIds(Without(cs, id))
    ensures TableOf(alive, Without(cs, id)) == TableOf(alive, cs) - {id}
  {
    WithoutDistinct(cs, id);
    forall i | 0 <= i < |Without(cs, id)|
      ensures var d := Without(cs, id)[i];
              var m := TableOf(alive, cs) - {id};
              d.id in m && m[d.id] == if d.pid in alive then Up(d.pid) else Off
    {
      DeletedEntries(alive, cs, id, i);
    }
    forall x | x in TableOf(alive, cs) - {id}
      ensures x in Ids(Without(cs, id))
    {
      DeletedKeys(cs, id, x);
    }
    SameTable(alive, Without(cs, id), TableOf(alive, cs) - {id});
  }

  // ---------------------------------------------------------------- one request

  function StateOf(alive: set<Pid>, c: Child): Status {
    if c.pid in alive then Up(c.pid) else Off
  }

  lemma SettleUpdate(m: Table, id: string, x: Status, alive: set<Pid>)
    ensures Settle(m[id := x], alive)
         == Settle(m, alive)[id := if x.Up? && x.pid !in alive then Off else x]
  {
  }

  lemma ActiveIsUp(w: World, cs: seq<Child>, k: nat)
    requires Consistent(w, cs) && k < |cs|
    ensures Active(w, cs[k]) <==> cs[k].pid in w.alive
    ensures cs[k].id in TableOf(w.alive, cs)
    ensures TableOf(w.alive, cs)[cs[k].id] == if Active(w, cs[k]) then Up(cs[k].pid) else Off
  {
    EntryAt(w.alive, cs, k);
    assert cs[k] in cs;
  }

  /** A started child, new or old, on the table. */
  lemma EnteredChild(env: Env, w: World, cs: seq<Child>, c: Child, m: Table)
    requires Sane(w) && DistinctIds(cs) && Issued(cs, w.next) && m == TableOf(w.alive, cs)
    ensures var st := StartChild(env, w, c);
            var e := EnterStarted(m, c.id, env.start(w.now), w.next);
            && (st.error == None ==>
                  Settle(e.table, st.w.alive) == TableOf(st.w.alive, cs)[c.id := StateOf(st.w.alive, st.child)])
            && (st.error.Some? ==> Settle(e.table, st.w.alive) == TableOf(st.w.alive, cs))
  {
    var st := StartChild(env, w, c);
    SettleTable(w, st.w.alive, cs);
    SettleUpdate(m, c.id, Up(w.next), st.w.alive);
    SettleUpdate(m, c.id, Off, st.w.alive);
  }

  /** What a request does to the table, up to the deaths that happen meanwhile. */
  ghost predicate Refines(env: Env, w: World, cs: seq<Child>, request: Request) {
    var r := Handle(env, Sup(w, cs, []), request);
    var e := Enter(TableOf(w.alive, cs), request, env.start(w.now), w.next);
    r.answer == e.answer && TableOf(r.sup.w.alive, r.sup.children) == Settle(e.table, r.sup.w.alive)
  }

  lemma StartRefines(env: Env, w: World, cs: seq<Child>, id: string, restart: Restart)
    requires Consistent(w, cs) && NoBlanks(cs) && !Blank(id)
    ensures Refines(env, w, cs, StartIt(id, restart))
  {
    HasIsListed(cs, id);
    if Has(cs, id) {
      ActiveIsUp(w, cs, Position(cs, id));
      SettleTable(w, w.alive, cs);
    } else {
      var c := NewChild(id, restart);
      EnteredChild(env, w, cs, c, TableOf(w.alive, cs));
      var st := StartChild(env, w, c);
      AppendedTable(st.w.alive, cs, st.child);
    }
  }

  lemma TerminateRefines(env: Env, w: World, cs: seq<Child>, id: string)
    requires Consistent(w, cs)
    ensures Refines(env, w, cs, TerminateIt(id))
  {
    HasIsListed(cs, id);
    SettleTable(w, w.alive, cs);
    if Has(cs, id) {
      var k := Position(cs, id);
      var c := cs[k].(terminated := true, pid := UNDEFINED);
      var u := DoTerminate(env, Sup(w, cs, []), id).sup.w;
      TerminateSane(env, w, cs[k]);
      SettleTable(w, u.alive, cs);
      SettleUpdate(TableOf(w.alive, cs), id, Off, u.alive);
      ReplacedTable(u.alive, cs, k, c);
    }
  }

  lemma RestartRefines(env: Env, w: World, cs: seq<Child>, id: string)
    requires Consistent(w, cs)
    ensures Refines(env, w, cs, RestartIt(id))
  {
    HasIsListed(cs, id);
    SettleTable(w, w.alive, cs);
    if Has(cs, id) {
      var k := Position(cs, id);
      ActiveIsUp(w, cs, k);
      if !Active(w, cs[k]) {
        RestartedTable(env, w, cs, k);
      }
    }
  }

  lemma RestartedTable(env: Env, w: World, cs: seq<Child>, k: nat)
    requires Consistent(w, cs) && k < |cs| && cs[k].pid !in w.alive
    ensures var st := StartChild(env, w, cs[k].(terminated := false, ignored := false));
            var c := if st.error.Some? then st.child.(terminated := true) else st.child;
            var e := EnterStarted(TableOf(w.alive, cs), cs[k].id, env.start(w.now), w.next);
            TableOf(st.w.alive, cs[k := c]) == Settle(e.table, st.w.alive)
  {
    var c0 := cs[k].(terminated := false, ignored := false);
    EnteredChild(env, w, cs, c0, TableOf(w.alive, cs));
    var st := StartChild(env, w, c0);
    var c := if st.error.Some? then st.child.(terminated := true) else st.child;
    ReplacedTable(st.w.alive, cs, k, c);
    assert cs[k] in cs;
    if st.error.Some? {
      EntryAt(st.w.alive, cs, k);
      assert c.pid !in st.w.alive;
    }
  }

  lemma DeleteRefines(env: Env, w: World, cs: seq<Child>, id: string)
    requires Consistent(w, cs)
    ensures Refines(env, w, cs, DeleteIt(id))
  {
    HasIsListed(cs, id);
    SettleTable(w, w.alive, cs);
    if Has(cs, id) {
      ActiveIsUp(w, cs, Position(cs, id));
      DeletedTable(w.alive, cs, id);
      SettleRemove(TableOf(w.alive, cs), id, w.alive);
    }
  }

  lemma SettleRemove(m: Table, id: string, alive: set<Pid>)
    ensures Settle(m - {id}, alive) == Settle(m, alive) - {id}
  {
  }

  // ---------------------------------------------------------------- consistency

  lemma StartConsistent(env: Env, w: World, cs: seq<Child>, id: string, restart: Restart)
    requires Consistent(w, cs) && NoBlanks(cs) && !Blank(id)
    ensures var s := DoStart(env, Sup(w, cs, []), id, restart).sup;
            Consistent(s.w, s.children) && NoBlanks(s.children)
  {
    var st := StartChild(env, w, NewChild(id, restart));
    if !Has(cs, id) && st.error == None {
      assert forall c :: c in cs ==> c.pid != st.child.pid || st.child.pid !in st.w.alive;
      AppendedIssued(cs, st.child, st.w);
    }
  }

  lemma AppendedIssued(cs: seq<Child>, c: Child, w: World)
    requires Sane(w) && DistinctIds(cs) && Issued(cs, w.next) && !Has(cs, c.id) && c.pid < w.next
    requires FlagsAgree(w.alive, cs) && Unshared(w.alive, cs)
    requires c.pid !in w.alive || (!c.terminated && !c.ignored && forall d :: d in cs ==> d.pid != c.pid)
    ensures Consistent(w, cs + [c]) && (NoBlanks(cs) && !Blank(c.id) ==> NoBlanks(cs + [c]))
  {
    assert forall i :: 0 <= i < |cs| ==> cs[i] in cs && cs[i].id != c.id;
  }

  lemma TerminateConsistent(env: Env, w: World, cs: seq<Child>, id: string)
    requires Consistent(w, cs) && NoBlanks(cs)
    ensures var s := DoTerminate(env, Sup(w, cs, []), id).sup;
            Consistent(s.w, s.children) && NoBlanks(s.children)
  {
    if Has(cs, id) {
      var s := DoTerminate(env, Sup(w, cs, []), id).sup;
      TerminateSane(env, w, cs[Position(cs, id)]);
      ReplacedIssued(cs, Position(cs, id), s.children[Position(cs, id)], s.w);
    }
  }

  /** A list in which one child got a new process, or one that is not alive. */
  lemma ReplacedIssued(cs: seq<Child>, k: nat, c: Child, w: World)
    requires Sane(w) && DistinctIds(cs) && Issued(cs, w.next) && k < |cs| && c.id == cs[k].id && c.pid < w.next
    requires FlagsAgree(w.alive, cs) && Unshared(w.alive, cs)
    requires c.pid !in w.alive || (!c.terminated && !c.ignored && forall d :: d in cs ==> d.pid != c.pid)
    ensures Consistent(w, cs[k := c]) && (NoBlanks(cs) ==> NoBlanks(cs[k := c]))
  {
    var ds := cs[k := c];
    assert forall i :: 0 <= i < |cs| ==> ds[i].id == cs[i].id && (i != k ==> ds[i] == cs[i]) && cs[i] in cs;
    forall d | d in ds
      ensures d == c || d in cs
    {
    }
  }

  lemma RestartConsistent(env: Env, w: World, cs: seq<Child>, id: string)
    requires Consistent(w, cs) && NoBlanks(cs)
    ensures var s := DoRestart(env, Sup(w, cs, []), id).sup;
            Consistent(s.w, s.children) && NoBlanks(s.children)
  {
    if Has(cs, id) {
      var k := Position(cs, id);
      assert cs[k] in cs;
      if !Active(w, cs[k]) {
        var s := DoRestart(env, Sup(w, cs, []), id).sup;
        ReplacedIssued(cs, k, s.children[k], s.w);
      }
    }
  }

  lemma {:induction false} WithoutShares(cs: seq<Child>, id: string, alive: set<Pid>)
    requires Unshared(alive, cs)
    ensures Unshared(alive, Without(cs, id))
  {
    if cs != [] {
      var n := |cs| - 1;
      WithoutShares(cs[..n], id, alive);
      WithoutThins(cs[..n], id);
      var front := Without(cs[..n], id);
      forall i | 0 <= i < |front| && front[i].pid == cs[n].pid
        ensures front[i].pid !in alive
      {
        assert front[i] in front && front[i] in cs[..n];
        var j :| 0 <= j < n && cs[j] == front[i];
      }
    }
  }

  lemma DeleteConsistent(w: World, cs: seq<Child>, id: string)
    requires Consistent(w, cs) && NoBlanks(cs)
    ensures var s := DoDelete(Sup(w, cs, []), id).sup;
            Consistent(s.w, s.children) && NoBlanks(s.children)
  {
    WithoutDistinct(cs, id);
    WithoutShares(cs, id, w.alive);
    var ds := Without(cs, id);
    forall i | 0 <= i < |ds|
      ensures !Blank(ds[i].id)
    {
      assert ds[i] in ds && ds[i] in cs;
    }
  }

  // ---------------------------------------------------------------- any number of requests

  /** A request whose identifier may be used. */
  predicate Nameable(request: Request) {
    request.StartIt? ==> !Blank(request.id)
  }

  lemma HandleHistory(env: Env, sup: Sup, request: Request)
    ensures var r := Handle(env, sup, request);
            var s := Handle(env, sup.(history := []), request);
            r.answer == s.answer && r.sup == s.sup.(history := sup.history)
  {
  }

  /** One request: the same answer and the same change as on the table, up to deaths before and after; the state stays
      consistent and the restart history is not touched. */
  lemma ServeRefines(env: Env, sup: Sup, request: Request)
    requires Consistent(sup.w, sup.children) && NoBlanks(sup.children) && Nameable(request)
    ensures var v := Tick(env, sup.w);
            var r := Serve(env, sup, request);
            var e := Enter(Settle(TableOf(sup.w.alive, sup.children), v.alive), request, env.start(v.now), v.next);
            && r.answer == e.answer
            && TableOf(r.sup.w.alive, r.sup.children) == Settle(e.table, r.sup.w.alive)
            && Consistent(r.sup.w, r.sup.children) && NoBlanks(r.sup.children)
            && r.sup.history == sup.history
  {
    var v := Tick(env, sup.w);
    var cs := sup.children;
    SettleTable(sup.w, v.alive, cs);
    assert Consistent(v, cs);
    HandleHistory(env, sup.(w := v), request);
    match request
    case StartIt(id, restart) =>
      StartRefines(env, v, cs, id, restart);
      StartConsistent(env, v, cs, id, restart);
    case TerminateIt(id) =>
      TerminateRefines(env, v, cs, id);
      TerminateConsistent(env, v, cs, id);
    case RestartIt(id) =>
      RestartRefines(env, v, cs, id);
      RestartConsistent(env, v, cs, id);
    case DeleteIt(id) =>
      DeleteRefines(env, v, cs, id);
      DeleteConsistent(v, cs, id);
  }

  function ServeAll(env: Env, sup: Sup, requests: seq<Request>): Sup {
    if requests == [] then sup
    else Serve(env, ServeAll(env, sup, requests[..|requests| - 1]), requests[|requests| - 1]).sup
  }

  function Answers(env: Env, sup: Sup, requests: seq<Request>): seq<Answer> {
    if requests == [] then []
    else
      var n := |requests| - 1;
      Answers(env, sup, requests[..n]) + [Serve(env, ServeAll(env, sup, requests[..n]), requests[n]).answer]
  }

  ghost predicate NeverUsed(m: Table, pid: Pid) {
    forall id :: id in m && m[id].Up? ==> m[id].pid != pid
  }

  ghost predicate Step(m: Table, request: Request, start: Start, born: Pid, answer: Answer, after: Table,
                       first: set<Pid>, second: set<Pid>) {
    var e := Enter(Settle(m, first), request, start, born);
    NeverUsed(m, born) && answer == e.answer && after == Settle(e.table, second)
  }

  /** One request on the table, with some processes dying before and after. */
  ghost predicate Stepped(m: Table, request: Request, answer: Answer, after: Table) {
    exists start, born: Pid, first, second :: Step(m, request, start, born, answer, after, first, second)
  }

  /** A run of the table machine that gives these answers. */
  ghost predicate Explains(m: Table, requests: seq<Request>, answers: seq<Answer>, after: Table) {
    if requests == [] then answers == [] && after == m
    else
      var n := |requests| - 1;
      && |answers| == n + 1
      && exists mid :: Explains(m, requests[..n], answers[..n], mid) && Stepped(mid, requests[n], answers[n], after)
  }

  lemma TableIsOld(w: World, cs: seq<Child>)
    requires Sane(w) && Issued(cs, w.next)
    ensures NeverUsed(TableOf(w.alive, cs), w.next)
  {
    var m := TableOf(w.alive, cs);
    forall id | id in m && m[id].Up?
      ensures m[id].pid != w.next
    {
      assert cs[Position(cs, id)] in cs;
    }
  }

  lemma ServeSteps(env: Env, sup: Sup, request: Request)
    requires Consistent(sup.w, sup.children) && NoBlanks(sup.children) && Nameable(request)
    ensures var r := Serve(env, sup, request);
            Stepped(TableOf(sup.w.alive, sup.children), request, r.answer, TableOf(r.sup.w.alive, r.sup.children))
  {
    ServeRefines(env, sup, request);
    TableIsOld(sup.w, sup.children);
    var v := Tick(env, sup.w);
    var r := Serve(env, sup, request);
    assert Step(TableOf(sup.w.alive, sup.children), request, env.start(v.now), v.next, r.answer,
                TableOf(r.sup.w.alive, r.sup.children), v.alive, r.sup.w.alive);
  }

  /** Any sequence of requests is answered as a run of the table machine answers it, and ends in the table of the final
      state; consistency is kept, and no request ever counts as a restart. */
  lemma {:induction false} RequestsRefineTable(env: Env, sup: Sup, requests: seq<Request>)
    requires Consistent(sup.w, sup.children) && NoBlanks(sup.children)
    requires forall i :: 0 <= i < |requests| ==> Nameable(requests[i])
    ensures var end := ServeAll(env, sup, requests);
            && Consistent(end.w, end.children) && NoBlanks(end.children)
            && end.history == sup.history
            && Explains(TableOf(sup.w.alive, sup.children), requests, Answers(env, sup, requests),
                        TableOf(end.w.alive, end.children))
  {
    if requests != [] {
      var n := |requests| - 1;
      RequestsRefineTable(env, sup, requests[..n]);
      var before := ServeAll(env, sup, requests[..n]);
      ServeRefines(env, before, requests[n]);
      ServeSteps(env, before, requests[n]);
      assert Answers(env, sup, requests)[..n] == Answers(env, sup, requests[..n]);
      var mid := TableOf(before.w.alive, before.children);
      assert Explains(TableOf(sup.w.alive, sup.children), requests[..n], Answers(env, sup, requests[..n]), mid);
    }
  }

  // ---------------------------------------------------------------- where the table machine is left

  /** A child is started without an error exactly when its identifier is new, its start does not fail, and no
      identifier of the new list is blank. In every other case in which the identifier is new and the start succeeds,
      an error is reported although the child runs and is in the list. */
  lemma StartSucceedsExactlyWhen(env: Env, sup: Sup, id: string, restart: Restart)
    requires DistinctIds(sup.children)
    ensures var r := DoStart(env, sup, id, restart);
            var started := !Has(sup.children, id) && !env.start(sup.w.now).StartFail?;
            && (r.answer.Fine? <==> started && !Blank(id) && NoBlanks(sup.children))
            && (started ==> |r.sup.children| == |sup.children| + 1)
            && (started && env.start(sup.w.now).StartOk? ==>
                  r.sup.children[|sup.children|].pid in r.sup.w.alive)
            && (started && (Blank(id) || !NoBlanks(sup.children)) ==> r.answer == BadList)
  {
    if !Has(sup.children, id) && !env.start(sup.w.now).StartFail? {
      var more := DoStart(env, sup, id, restart).sup.children;
      assert more[|sup.children|].id == id;
      assert forall i :: 0 <= i < |sup.children| ==> more[i] == sup.children[i];
      if WellListed(more) {
        assert !Blank(id) && NoBlanks(sup.children);
      }
    }
  }

  /** Terminating a child, which always reports success, leaves its process alive exactly when the process is alive but
      the child carries a mark from before, as after a group restart. */
  lemma TerminateMissesExactlyWhen(env: Env, sup: Sup, k: nat)
    requires NobodyDies(env) && DistinctIds(sup.children) && k < |sup.children|
    ensures var c := sup.children[k];
            var r := DoTerminate(env, sup, c.id);
            && r.answer == Fine(UNDEFINED)
            && (c.pid in r.sup.w.alive <==> c.pid in sup.w.alive && (c.terminated || c.ignored))
  {
    AtPosition(sup.children, k);
    TerminateSpares(env, sup.w, sup.children[k]);
  }

  /** The number of a terminated child is forgotten for good: whatever comes after the request, an exit that carries
      it matches no child. */
  lemma TerminatedIsForgotten(env: Env, flags: Flags, sup: Sup, k: nat, inputs: seq<Input>)
    requires Consistent(sup.w, sup.children) && k < |sup.children| && sup.children[k].pid != UNDEFINED
    requires forall i :: 0 <= i < |sup.children| && i != k ==> sup.children[i].pid != sup.children[k].pid
    ensures var after := DoTerminate(env, sup, sup.children[k].id).sup;
            var end := Live(env, flags, after, inputs).sup;
            PositionOfPid(end.children, sup.children[k].pid) == |end.children|
  {
    AtPosition(sup.children, k);
    TerminateSane(env, sup.w, sup.children[k]);
    assert sup.children[k] in sup.children;
    var after := DoTerminate(env, sup, sup.children[k].id).sup;
    forall c | c in after.children
      ensures c.pid != sup.children[k].pid
    {
      var i :| 0 <= i < |after.children| && after.children[i] == c;
    }
    OldPidNeverMatches(env, flags, after, inputs, sup.children[k].pid);
  }
}
