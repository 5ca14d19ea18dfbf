/** Concurrent worker creations, each statement one step, with store failures and administrators
    deleting workers at any time. Generated worker IDs are fresh. */
module ProvisioningRuns {
  import opened Prelude
  import opened Provisioning

  datatype Reply = Created(id: string) | Rejected(error: ProvisionError)

  /** Where one creation is. A rollback leads to an error, or to another attempt. */
  datatype Pc =
    | Counting
    | Seeding(attempt: nat)
    | Claiming(attempt: nat, id: string)
    | Crediting(attempt: nat, id: string)
    | Hashing(attempt: nat, id: string)
    | Uncrediting(attempt: nat, id: string)
    | RollingBack(attempt: nat, id: string, verdict: Option<ProvisionError>)
    | Done(reply: Reply)

  datatype Creator = Creator(owner: string, sys: bool, pc: Pc)

  /** How the store treats a statement: as asked, not at all, or as asked but reporting an error. */
  datatype Store = Works | Refuses | Forgets

  /** `used` are the IDs ever generated. */
  datatype State = State(db: Database, credentials: set<string>, creators: map<nat, Creator>, used: set<string>)

  /** Any tables in which each claim names a worker-sys node of its owner, and no creation under way. */
  ghost predicate Start(st: State) {
    && st.creators == map[]
    && st.db.nodes.Keys <= st.used && st.db.hashes <= st.used && st.credentials <= st.used
    && ClaimsNameSysNodes(st.db)
  }

  ghost predicate ClaimsNameSysNodes(db: Database) {
    forall o | o in db.claims :: db.claims[o] in db.nodes && db.nodes[db.claims[o]] == Node(o, true)
  }

  datatype Step =
    | Count
    | Seed(id: string)
    | Claim
    | Credit
    | Hash
    | Uncredit
    | RollBack

  datatype Action =
    | Begin(c: nat, owner: string, sys: bool)
    | Advance(c: nat, step: Step, store: Store)
    | AdminUncredits(id: string)
    | AdminDeletes(id: string)

  /** The ID a creation is working on or has returned. */
  function IdOf(pc: Pc): Option<string> {
    match pc
    case Claiming(_, id) => Some(id)
    case Crediting(_, id) => Some(id)
    case Hashing(_, id) => Some(id)
    case Uncrediting(_, id) => Some(id)
    case RollingBack(_, id, _) => Some(id)
    case Done(Created(id)) => Some(id)
    case _ => None
  }

  function Goto(st: State, c: nat, pc: Pc): State
    requires c in st.creators
  {
    st.(creators := st.creators[c := st.creators[c].(pc := pc)])
  }

  predicate CanAdvance(st: State, c: nat, step: Step)
    requires c in st.creators
  {
    var pc := st.creators[c].pc;
    match step
    case Count => pc.Counting?
    case Seed(id) => pc.Seeding? && id !in st.used
    case Claim => pc.Claiming?
    case Credit => pc.Crediting?
    case Hash => pc.Hashing?
    case Uncredit => pc.Uncrediting?
    case RollBack => pc.RollingBack?
  }

  function NextAttempt(attempt: nat): Pc {
    if attempt + 1 < MAX_PROVISIONING_CREATE_ATTEMPTS then Seeding(attempt + 1) else Done(Rejected(Exhausted))
  }

  /** A failing count reads as zero. */
  function Counted(st: State, c: nat, store: Store): State
    requires c in st.creators
  {
    var x := st.creators[c];
    Goto(st, c, if x.sys && store.Works? && HasSys(st.db.nodes, x.owner) then Done(Rejected(AlreadyExists))
                else Seeding(0))
  }

  function SeedStep(st: State, c: nat, id: string, store: Store): State
    requires c in st.creators && st.creators[c].pc.Seeding?
  {
    var x := st.creators[c];
    var db := if store.Refuses? then st.db else Seeded(st.db, id, x.owner, x.sys);
    Goto(st.(db := db, used := st.used + {id}), c,
         if !store.Works? || id in st.db.nodes then NextAttempt(x.pc.attempt)
         else if x.sys then Claiming(x.pc.attempt, id)
         else Crediting(x.pc.attempt, id))
  }

  function ClaimStep(st: State, c: nat, store: Store): State
    requires c in st.creators && st.creators[c].pc.Claiming?
  {
    var x := st.creators[c];
    var db := if store.Refuses? then st.db else Claimed(st.db, x.owner, x.pc.id);
    Goto(st.(db := db), c,
         if !store.Works? || ClaimRejected(st.db, x.owner, x.pc.id) then
           RollingBack(x.pc.attempt, x.pc.id, Some(ClaimFailed))
         else if x.owner in st.db.claims then RollingBack(x.pc.attempt, x.pc.id, Some(AlreadyExists))
         else Crediting(x.pc.attempt, x.pc.id))
  }

  function HashStep(st: State, c: nat, store: Store): State
    requires c in st.creators && st.creators[c].pc.Hashing?
  {
    var x := st.creators[c];
    Goto(st.(db := if store.Refuses? then st.db else HashStored(st.db, x.pc.id)), c,
         if store.Works? && CanStoreHash(st.db, x.pc.id) then Done(Created(x.pc.id))
         else Uncrediting(x.pc.attempt, x.pc.id))
  }

  function RollBackStep(st: State, c: nat, store: Store): State
    requires c in st.creators && st.creators[c].pc.RollingBack?
  {
    var x := st.creators[c];
    Goto(st.(db := if store.Refuses? then st.db else Deleted(st.db, x.pc.id)), c,
         if x.pc.verdict.Some? then Done(Rejected(x.pc.verdict.value)) else NextAttempt(x.pc.attempt))
  }

  function Advanced(st: State, c: nat, step: Step, store: Store): State
    requires c in st.creators && CanAdvance(st, c, step)
  {
    var pc := st.creators[c].pc;
    match step
    case Count => Counted(st, c, store)
    case Seed(id) => SeedStep(st, c, id, store)
    case Claim => ClaimStep(st, c, store)
    case Credit =>
      Goto(st.(credentials := st.credentials + {pc.id}), c,
           if pc.id in st.credentials then RollingBack(pc.attempt, pc.id, None) else Hashing(pc.attempt, pc.id))
    case Hash => HashStep(st, c, store)
    case Uncredit =>
      Goto(st.(credentials := st.credentials - {pc.id}), c, RollingBack(pc.attempt, pc.id, None))
    case RollBack => RollBackStep(st, c, store)
  }

  predicate Enabled(st: State, a: Action) {
    match a
    case Begin(c, owner, sys) => c !in st.creators && owner != ""
    case Advance(c, step, store) => c in st.creators && CanAdvance(st, c, step)
    case _ => true
  }

  function Apply(st: State, a: Action): State
    requires Enabled(st, a)
  {
    match a
    case Begin(c, owner, sys) => st.(creators := st.creators[c := Creator(owner, sys, Counting)])
    case Advance(c, step, store) => Advanced(st, c, step, store)
    case AdminUncredits(id) => st.(credentials := st.credentials - {id}, db := st.db.(hashes := st.db.hashes - {id}))
    case AdminDeletes(id) => st.(db := Deleted(st.db, id))
  }

  ghost predicate IsRun(trace: seq<State>, actions: seq<Action>) {
    && |trace| == |actions| + 1
    && Start(trace[0])
    && forall i :: 0 <= i < |actions| ==> Enabled(trace[i], actions[i]) && trace[i + 1] == Apply(trace[i], actions[i])
  }

  // ---------- At most one ----------

  ghost predicate IdsOk(st: State) {
    && st.db.nodes.Keys <= st.used
    && (forall c | c in st.creators && IdOf(st.creators[c].pc).Some? :: IdOf(st.creators[c].pc).value in st.used)
    && (forall c, d | c in st.creators && d in st.creators && c != d && IdOf(st.creators[c].pc).Some? ::
          IdOf(st.creators[c].pc) != IdOf(st.creators[d].pc))
  }

  /** Past the claim, and not on the way back. */
  predicate Holding(x: Creator) {
    x.sys && (x.pc.Crediting? || x.pc.Hashing? || (x.pc.Done? && x.pc.reply.Created?))
  }

  /** The claim of the owner names the node, as long as it is there. */
  predicate HoldsClaim(st: State, x: Creator) {
    Holding(x) && IdOf(x.pc).value in st.db.nodes ==>
      x.owner in st.db.claims && st.db.claims[x.owner] == IdOf(x.pc).value
  }

  ghost predicate ClaimsOk(st: State) {
    forall c | c in st.creators :: HoldsClaim(st, st.creators[c])
  }

  /** One creation moves on: it keeps its ID, lets go of it, or takes a fresh one. */
  lemma MoveKeepsIds(st: State, after: State, c: nat, pc: Pc)
    requires IdsOk(st) && c in st.creators
    requires after.creators == st.creators[c := st.creators[c].(pc := pc)]
    requires st.used <= after.used && after.db.nodes.Keys <= after.used
    requires IdOf(pc).None? || IdOf(pc) == IdOf(st.creators[c].pc)
          || (IdOf(pc).value !in st.used && IdOf(pc).value in after.used)
    ensures IdsOk(after)
  {
    hide IdOf;
  }

  lemma AdvanceKeepsIds(st: State, c: nat, step: Step, store: Store)
    requires IdsOk(st) && c in st.creators && CanAdvance(st, c, step)
    ensures IdsOk(Advanced(st, c, step, store))
  {
    hide IdsOk;
    var after := Advanced(st, c, step, store);
    NodesWereUsed(st);
    MoveKeepsIds(st, after, c, after.creators[c].pc);
  }

  lemma NodesWereUsed(st: State)
    requires IdsOk(st)
    ensures st.db.nodes.Keys <= st.used
  {
  }

  lemma StepKeepsIds(st: State, a: Action)
    requires IdsOk(st) && Enabled(st, a)
    ensures IdsOk(Apply(st, a))
  {
    hide Advanced, IdOf;
    match a
    case Begin(c, owner, sys) => assert IdOf(Counting) == None by { BeginsWithoutId(); }
    case Advance(c, step, store) => AdvanceKeepsIds(st, c, step, store);
    case AdminUncredits(id) =>
    case AdminDeletes(id) =>
  }

  lemma BeginsWithoutId()
    ensures IdOf(Counting) == None
  {
  }

  /** The other creations keep their claims when one of them moves on, and no lost node comes back. */
  ghost predicate ClaimsStay(st: State, after: State, c: nat) {
    && (forall n | n in after.db.nodes && n in st.used :: n in st.db.nodes)
    && forall o | o in st.db.claims ::
         || (o in after.db.claims && after.db.claims[o] == st.db.claims[o])
         || (c in st.creators && Some(st.db.claims[o]) == IdOf(st.creators[c].pc))
  }

  lemma MoveKeepsClaims(st: State, after: State, c: nat)
    requires IdsOk(st) && ClaimsOk(st) && c in st.creators && c in after.creators
    requires after.creators == st.creators[c := after.creators[c]] && ClaimsStay(st, after, c)
    requires HoldsClaim(after, after.creators[c])
    ensures ClaimsOk(after)
  {
    forall d | d in after.creators && d != c
      ensures HoldsClaim(after, after.creators[d])
    {
      assert HoldsClaim(st, st.creators[d]);
      assert IdOf(st.creators[d].pc).Some? ==> IdOf(st.creators[d].pc) != IdOf(st.creators[c].pc);
    }
  }

  lemma AdvanceKeepsClaims(st: State, c: nat, step: Step, store: Store)
    requires IdsOk(st) && ClaimsOk(st) && c in st.creators && CanAdvance(st, c, step)
    ensures ClaimsOk(Advanced(st, c, step, store))
  {
    var after := Advanced(st, c, step, store);
    assert HoldsClaim(st, st.creators[c]);
    hide IdsOk, ClaimsOk;
    MoveKeepsClaims(st, after, c);
  }

  lemma StepKeepsClaims(st: State, a: Action)
    requires IdsOk(st) && ClaimsOk(st) && Enabled(st, a)
    ensures ClaimsOk(Apply(st, a))
  {
    hide Advanced;
    match a
    case Begin(c, owner, sys) =>
    case Advance(c, step, store) => AdvanceKeepsClaims(st, c, step, store);
    case AdminUncredits(id) =>
    case AdminDeletes(id) =>
  }

  lemma {:induction false} RunKeepsClaims(trace: seq<State>, actions: seq<Action>, i: nat)
    requires IsRun(trace, actions) && i < |trace|
    ensures IdsOk(trace[i]) && ClaimsOk(trace[i])
  {
    if i > 0 {
      RunKeepsClaims(trace, actions, i - 1);
      hide IdsOk, ClaimsOk, Enabled, Apply;
      StepKeepsIds(trace[i - 1], actions[i - 1]);
      StepKeepsClaims(trace[i - 1], actions[i - 1]);
    }
  }

  /** Whatever the tables held before, with store failures and deletions anywhere, two successful
      creations of a worker-sys for one owner never both have their node. */
  lemma AtMostOneWorkerSys(trace: seq<State>, actions: seq<Action>, i: nat, c: nat, d: nat)
    requires IsRun(trace, actions) && i < |trace| && c in trace[i].creators && d in trace[i].creators && c != d
    requires var x, y := trace[i].creators[c], trace[i].creators[d];
             && x.sys && y.sys && x.owner == y.owner
             && x.pc.Done? && x.pc.reply.Created? && y.pc.Done? && y.pc.reply.Created?
    ensures trace[i].creators[c].pc.reply.id !in trace[i].db.nodes
         || trace[i].creators[d].pc.reply.id !in trace[i].db.nodes
  {
    RunKeepsClaims(trace, actions, i);
    OneHasItsNode(trace[i], c, d);
  }

  lemma OneHasItsNode(st: State, c: nat, d: nat)
    requires IdsOk(st) && ClaimsOk(st) && c in st.creators && d in st.creators && c != d
    requires Holding(st.creators[c]) && Holding(st.creators[d]) && st.creators[c].owner == st.creators[d].owner
    ensures IdOf(st.creators[c].pc).value !in st.db.nodes || IdOf(st.creators[d].pc).value !in st.db.nodes
  {
    assert HoldsClaim(st, st.creators[c]) && HoldsClaim(st, st.creators[d]);
  }

  // ---------- Exactly one ----------

  /** No deletions and no store failures. */
  predicate Quiet(a: Action) {
    a.Begin? || (a.Advance? && a.store.Works?)
  }

  /** Nothing of this node has been stored beyond what the creation itself has done so far. */
  predicate Untouched(st: State, pc: Pc) {
    match pc
    case Claiming(_, id) => id !in st.credentials && id !in st.db.hashes && Unclaimed(st.db.claims, id)
    case Crediting(_, id) => id !in st.credentials && id !in st.db.hashes
    case Hashing(_, id) => id !in st.db.hashes
    case RollingBack(_, id, _) => Unclaimed(st.db.claims, id)
    case _ => true
  }

  predicate Unclaimed(claims: map<string, string>, id: string) {
    forall o | o in claims :: claims[o] != id
  }

  /** Only the ways a quiet creation can go. */
  predicate OnTrack(st: State, x: Creator) {
    match x.pc
    case Seeding(attempt) => attempt == 0
    case Claiming(_, _) => x.sys
    case Uncrediting(_, _) => false
    case RollingBack(_, _, verdict) => verdict == Some(AlreadyExists) && x.sys && x.owner in st.db.claims
    case Done(Rejected(error)) => error == AlreadyExists && x.sys && HasSys(st.db.nodes, x.owner)
    case _ => true
  }

  predicate NodePresent(st: State, x: Creator) {
    IdOf(x.pc).Some? ==> IdOf(x.pc).value in st.db.nodes && st.db.nodes[IdOf(x.pc).value] == Node(x.owner, x.sys)
  }

  predicate CreatorOk(st: State, x: Creator) {
    Untouched(st, x.pc) && OnTrack(st, x) && NodePresent(st, x)
  }

  predicate HasMaker(st: State, n: string) {
    exists c | c in st.creators :: IdOf(st.creators[c].pc) == Some(n)
  }

  /** A node was there at the start, or one of the creations made it. */
  ghost predicate Explained(st: State, base: map<string, Node>, n: string) {
    HasMaker(st, n) || (n in base && n in st.db.nodes && st.db.nodes[n] == base[n])
  }

  ghost predicate StoreOk(st: State, base: map<string, Node>) {
    && st.credentials <= st.used && st.db.hashes <= st.used && ClaimsNameSysNodes(st.db)
    && (forall n | n in st.db.nodes :: Explained(st, base, n))
  }

  ghost predicate QuietInv(st: State, base: map<string, Node>) {
    IdsOk(st) && StoreOk(st, base) && forall c | c in st.creators :: CreatorOk(st, st.creators[c])
  }

  /** The rows of one node may come or go; everything else stays, and claims stay with their nodes. */
  ghost predicate OnlyTouches(st: State, after: State, id: string) {
    && (forall n | n in st.db.nodes ::
          if n in after.db.nodes then after.db.nodes[n] == st.db.nodes[n] else n == id)
    && (forall n | n !in st.credentials && n != id :: n !in after.credentials)
    && (forall n | n !in st.db.hashes && n != id :: n !in after.db.hashes)
    && (forall o | o in st.db.claims :: o in after.db.claims && after.db.claims[o] == st.db.claims[o])
    && (forall o | o in after.db.claims && o !in st.db.claims :: after.db.claims[o] == id)
    && (forall o | HasSys(st.db.nodes, o) :: HasSys(after.db.nodes, o))
  }

  lemma OthersStayOk(st: State, after: State, x: Creator, id: string)
    requires CreatorOk(st, x) && OnlyTouches(st, after, id) && IdOf(x.pc) != Some(id)
    ensures CreatorOk(after, x)
  {
    hide HasSys;
  }

  /** A loser's rollback leaves its owner the claimed node. */
  lemma SysStays(st: State, after: State, gone: Option<string>)
    requires after.db.nodes == if gone.Some? then st.db.nodes - {gone.value} else after.db.nodes
    requires forall n | n in st.db.nodes && gone != Some(n) ::
               n in after.db.nodes && after.db.nodes[n] == st.db.nodes[n]
    requires ClaimsNameSysNodes(st.db)
    requires gone.Some? && gone.value in st.db.nodes ==>
               st.db.nodes[gone.value].owner in st.db.claims && Unclaimed(st.db.claims, gone.value)
    ensures forall o | HasSys(st.db.nodes, o) :: HasSys(after.db.nodes, o)
  {
    forall o | HasSys(st.db.nodes, o)
      ensures HasSys(after.db.nodes, o)
    {
      var n :| n in st.db.nodes && st.db.nodes[n] == Node(o, true);
      if gone == Some(n) {
        assert st.db.claims[o] in after.db.nodes;
      } else {
        assert n in after.db.nodes;
      }
    }
  }

  /** What has to be shown of one quiet step of one creation. */
  ghost predicate QuietMove(st: State, base: map<string, Node>, after: State, c: nat, id: string) {
    && c in after.creators && after.creators == st.creators[c := after.creators[c]]
    && OnlyTouches(st, after, id) && CreatorOk(after, after.creators[c])
    && StoreOk(after, base) && IdsOk(after)
    && forall d | d in st.creators && d != c :: IdOf(st.creators[d].pc) != Some(id)
  }

  lemma QuietMoveKeeps(st: State, base: map<string, Node>, after: State, c: nat, id: string)
    requires QuietInv(st, base) && QuietMove(st, base, after, c, id)
    ensures QuietInv(after, base)
  {
    hide CreatorOk, StoreOk, IdsOk, OnlyTouches;
    forall d | d in after.creators
      ensures CreatorOk(after, after.creators[d])
    {
      if d != c {
        OthersStayOk(st, after, st.creators[d], id);
      }
    }
  }

  /** A new node has its maker, and the others keep theirs. */
  lemma MakersStay(st: State, base: map<string, Node>, after: State, c: nat)
    requires forall n | n in st.db.nodes :: Explained(st, base, n)
    requires forall n | n in st.db.nodes && n in after.db.nodes :: after.db.nodes[n] == st.db.nodes[n]
    requires c in st.creators && c in after.creators && after.creators == st.creators[c := after.creators[c]]
    requires forall n | n in after.db.nodes :: n in st.db.nodes || IdOf(after.creators[c].pc) == Some(n)
    requires IdOf(st.creators[c].pc).Some? && IdOf(st.creators[c].pc).value in after.db.nodes ==>
               IdOf(after.creators[c].pc) == IdOf(st.creators[c].pc)
    ensures forall n | n in after.db.nodes :: Explained(after, base, n)
  {
    forall n | n in after.db.nodes
      ensures Explained(after, base, n)
    {
      if IdOf(after.creators[c].pc) != Some(n) && HasMaker(st, n) {
        var d :| d in st.creators && IdOf(st.creators[d].pc) == Some(n);
        assert d != c && IdOf(after.creators[d].pc) == Some(n);
      }
    }
  }

  lemma QuietCount(st: State, base: map<string, Node>, c: nat)
    requires QuietInv(st, base) && c in st.creators && CanAdvance(st, c, Count)
    ensures QuietInv(Advanced(st, c, Count, Works), base)
  {
    var after := Advanced(st, c, Count, Works);
    AdvanceKeepsIds(st, c, Count, Works);
    MakersStay(st, base, after, c);
    forall d | d in after.creators
      ensures CreatorOk(after, after.creators[d])
    {
      assert d != c ==> CreatorOk(st, st.creators[d]);
    }
  }

  lemma QuietSeed(st: State, base: map<string, Node>, c: nat, id: string)
    requires QuietInv(st, base) && c in st.creators && CanAdvance(st, c, Seed(id))
    ensures QuietInv(Advanced(st, c, Seed(id), Works), base)
  {
    var after := Advanced(st, c, Seed(id), Works);
    AdvanceKeepsIds(st, c, Seed(id), Works);
    QuietSeedStore(st, base, c, id);
    hide HasSys, HasMaker, StoreOk;
    QuietMoveKeeps(st, base, after, c, id);
  }

  lemma QuietSeedStore(st: State, base: map<string, Node>, c: nat, id: string)
    requires QuietInv(st, base) && c in st.creators && CanAdvance(st, c, Seed(id))
    ensures var after := Advanced(st, c, Seed(id), Works);
            StoreOk(after, base) && OnlyTouches(st, after, id) && CreatorOk(after, after.creators[c])
  {
    var after := Advanced(st, c, Seed(id), Works);
    assert CreatorOk(st, st.creators[c]);
    MakersStay(st, base, after, c);
    SysStays(st, after, None);
    hide HasSys, HasMaker, IdsOk;
    assert id !in st.db.nodes;
  }

  lemma QuietClaim(st: State, base: map<string, Node>, c: nat)
    requires QuietInv(st, base) && c in st.creators && CanAdvance(st, c, Claim)
    ensures QuietInv(Advanced(st, c, Claim, Works), base)
  {
    var after := Advanced(st, c, Claim, Works);
    AdvanceKeepsIds(st, c, Claim, Works);
    QuietClaimStore(st, base, c);
    hide HasSys, HasMaker, StoreOk, CreatorOk, OnlyTouches;
    QuietMoveKeeps(st, base, after, c, st.creators[c].pc.id);
  }

  /** An unclaimed owner's claim wins; a claimed owner's loses and is rolled back. */
  lemma QuietClaimOutcome(st: State, base: map<string, Node>, c: nat)
    requires QuietInv(st, base) && c in st.creators && CanAdvance(st, c, Claim)
    ensures var x := st.creators[c];
            && x.sys && x.pc.id in st.db.nodes && st.db.nodes[x.pc.id] == Node(x.owner, true)
            && x.pc.id !in st.credentials && x.pc.id !in st.db.hashes && Unclaimed(st.db.claims, x.pc.id)
            && Advanced(st, c, Claim, Works)
               == if x.owner in st.db.claims then Goto(st, c, RollingBack(x.pc.attempt, x.pc.id, Some(AlreadyExists)))
                  else Goto(st.(db := st.db.(claims := st.db.claims[x.owner := x.pc.id])), c,
                            Crediting(x.pc.attempt, x.pc.id))
  {
    assert CreatorOk(st, st.creators[c]);
    hide HasSys, IdsOk, StoreOk;
  }

  lemma QuietClaimStore(st: State, base: map<string, Node>, c: nat)
    requires QuietInv(st, base) && c in st.creators && CanAdvance(st, c, Claim)
    ensures var after := Advanced(st, c, Claim, Works);
            StoreOk(after, base) && OnlyTouches(st, after, st.creators[c].pc.id) && CreatorOk(after, after.creators[c])
  {
    hide HasSys, HasMaker, IdsOk, Explained, Advanced;
    var after := Advanced(st, c, Claim, Works);
    QuietClaimOutcome(st, base, c);
    MakersStay(st, base, after, c);
  }

  lemma QuietCredit(st: State, base: map<string, Node>, c: nat)
    requires QuietInv(st, base) && c in st.creators && CanAdvance(st, c, Credit)
    ensures QuietInv(Advanced(st, c, Credit, Works), base)
  {
    hide HasSys, HasMaker, Explained;
    var after := Advanced(st, c, Credit, Works);
    assert CreatorOk(st, st.creators[c]);
    AdvanceKeepsIds(st, c, Credit, Works);
    MakersStay(st, base, after, c);
    QuietMoveKeeps(st, base, after, c, st.creators[c].pc.id);
  }

  lemma QuietHash(st: State, base: map<string, Node>, c: nat)
    requires QuietInv(st, base) && c in st.creators && CanAdvance(st, c, Hash)
    ensures QuietInv(Advanced(st, c, Hash, Works), base)
  {
    hide HasSys, HasMaker, Explained;
    var after := Advanced(st, c, Hash, Works);
    assert CreatorOk(st, st.creators[c]);
    AdvanceKeepsIds(st, c, Hash, Works);
    MakersStay(st, base, after, c);
    QuietMoveKeeps(st, base, after, c, st.creators[c].pc.id);
  }

  lemma QuietRollBack(st: State, base: map<string, Node>, c: nat)
    requires QuietInv(st, base) && c in st.creators && CanAdvance(st, c, RollBack)
    ensures QuietInv(Advanced(st, c, RollBack, Works), base)
  {
    var after := Advanced(st, c, RollBack, Works);
    AdvanceKeepsIds(st, c, RollBack, Works);
    QuietRollBackStore(st, base, c);
    hide HasSys, HasMaker, StoreOk, CreatorOk, OnlyTouches;
    QuietMoveKeeps(st, base, after, c, st.creators[c].pc.id);
  }

  /** A quiet rollback is a loser's: it takes away one node and nothing else. */
  lemma RollBackTakesOneNode(st: State, base: map<string, Node>, c: nat)
    requires QuietInv(st, base) && c in st.creators && CanAdvance(st, c, RollBack)
    ensures var x, after := st.creators[c], Advanced(st, c, RollBack, Works);
            && x.pc.id in st.db.nodes && st.db.nodes[x.pc.id] == Node(x.owner, true)
            && x.sys && x.owner in st.db.claims && Unclaimed(st.db.claims, x.pc.id)
            && after == Goto(st.(db := Without(st, x.pc.id)), c, Done(Rejected(AlreadyExists)))
  {
    assert CreatorOk(st, st.creators[c]);
    assert Deleted(st.db, st.creators[c].pc.id).claims == st.db.claims;
  }

  lemma QuietRollBackStore(st: State, base: map<string, Node>, c: nat)
    requires QuietInv(st, base) && c in st.creators && CanAdvance(st, c, RollBack)
    ensures var after := Advanced(st, c, RollBack, Works);
            StoreOk(after, base) && OnlyTouches(st, after, st.creators[c].pc.id) && CreatorOk(after, after.creators[c])
  {
    RollBackTakesOneNode(st, base, c);
    hide Advanced, CanAdvance, CreatorOk, IdsOk;
    var x := st.creators[c];
    OneNodeLess(st, base, x.pc.id, x.owner);
    StoreWithoutLoser(st, base, c, x.pc.id);
    RefusedIsOk(Advanced(st, c, RollBack, Works), Advanced(st, c, RollBack, Works).creators[c]);
  }

  function Without(st: State, id: string): Database {
    Database(st.db.nodes - {id}, st.db.claims, st.db.hashes - {id})
  }

  lemma OneNodeLess(st: State, base: map<string, Node>, id: string, owner: string)
    requires StoreOk(st, base) && id in st.db.nodes && st.db.nodes[id] == Node(owner, true)
    requires owner in st.db.claims && Unclaimed(st.db.claims, id)
    ensures HasSys(st.db.nodes - {id}, owner)
    ensures forall after: State | after.db == Without(st, id) && after.credentials == st.credentials ::
              OnlyTouches(st, after, id)
  {
    var after := st.(db := Without(st, id));
    hide HasMaker;
    SysStays(st, after, Some(id));
    SomeoneElsesNode(after.db, owner);
  }

  lemma StoreWithoutLoser(st: State, base: map<string, Node>, c: nat, id: string)
    requires StoreOk(st, base) && c in st.creators && IdOf(st.creators[c].pc) == Some(id) && Unclaimed(st.db.claims, id)
    ensures StoreOk(Goto(st.(db := Without(st, id)), c, Done(Rejected(AlreadyExists))), base)
  {
    MakersStay(st, base, Goto(st.(db := Without(st, id)), c, Done(Rejected(AlreadyExists))), c);
    hide HasMaker, IdOf;
  }

  lemma RefusedIsOk(st: State, x: Creator)
    requires x.pc == Done(Rejected(AlreadyExists)) && x.sys && HasSys(st.db.nodes, x.owner)
    ensures CreatorOk(st, x)
  {
  }

  lemma SomeoneElsesNode(db: Database, owner: string)
    requires owner in db.claims && db.claims[owner] in db.nodes && db.nodes[db.claims[owner]] == Node(owner, true)
    ensures HasSys(db.nodes, owner)
  {
  }

  lemma QuietStep(st: State, base: map<string, Node>, a: Action)
    requires QuietInv(st, base) && Enabled(st, a) && Quiet(a)
    ensures QuietInv(Apply(st, a), base)
  {
    hide Advanced, QuietInv;
    match a
    case Begin(c, owner, sys) => QuietBegin(st, base, c, owner, sys);
    case Advance(c, step, store) =>
      match step {
        case Count => QuietCount(st, base, c);
        case Seed(id) => QuietSeed(st, base, c, id);
        case Claim => QuietClaim(st, base, c);
        case Credit => QuietCredit(st, base, c);
        case Hash => QuietHash(st, base, c);
        case Uncredit => NeverUncredits(st, base, c);
        case RollBack => QuietRollBack(st, base, c);
      }
  }

  lemma NeverUncredits(st: State, base: map<string, Node>, c: nat)
    requires QuietInv(st, base) && c in st.creators
    ensures !CanAdvance(st, c, Uncredit)
  {
    assert CreatorOk(st, st.creators[c]);
  }

  lemma QuietBegin(st: State, base: map<string, Node>, c: nat, owner: string, sys: bool)
    requires QuietInv(st, base) && Enabled(st, Begin(c, owner, sys))
    ensures QuietInv(Apply(st, Begin(c, owner, sys)), base)
  {
    var after := Apply(st, Begin(c, owner, sys));
    forall n | n in after.db.nodes
      ensures Explained(after, base, n)
    {
      if HasMaker(st, n) {
        var d :| d in st.creators && IdOf(st.creators[d].pc) == Some(n);
        assert d in after.creators && IdOf(after.creators[d].pc) == Some(n);
      }
    }
    forall d | d in after.creators
      ensures CreatorOk(after, after.creators[d])
    {
      assert d != c ==> CreatorOk(st, st.creators[d]);
    }
  }

  lemma {:induction false} QuietRun(trace: seq<State>, actions: seq<Action>, i: nat)
    requires IsRun(trace, actions) && i < |trace|
    requires forall j | 0 <= j < |actions| :: Quiet(actions[j])
    ensures QuietInv(trace[i], trace[0].db.nodes)
  {
    if i > 0 {
      QuietRun(trace, actions, i - 1);
      hide QuietInv, Enabled, Apply;
      QuietStep(trace[i - 1], trace[0].db.nodes, actions[i - 1]);
    }
  }

  predicate Wants(x: Creator, owner: string) {
    x.sys && x.owner == owner
  }

  predicate Succeeded(x: Creator) {
    x.pc.Done? && x.pc.reply.Created?
  }

  /** The creation that made a node, which is of the node's owner and type. */
  lemma MakerOf(st: State, base: map<string, Node>, n: string) returns (c: nat)
    requires QuietInv(st, base) && n in st.db.nodes && (n in base ==> base[n] != st.db.nodes[n])
    ensures c in st.creators && IdOf(st.creators[c].pc) == Some(n)
    ensures st.db.nodes[n] == Node(st.creators[c].owner, st.creators[c].sys)
  {
    assert Explained(st, base, n);
    c :| c in st.creators && IdOf(st.creators[c].pc) == Some(n);
    assert CreatorOk(st, st.creators[c]);
  }

  lemma SomeoneSucceeded(st: State, base: map<string, Node>, owner: string, first: nat) returns (winner: nat)
    requires QuietInv(st, base) && !HasSys(base, owner) && first in st.creators && Wants(st.creators[first], owner)
    requires forall c | c in st.creators && Wants(st.creators[c], owner) :: st.creators[c].pc.Done?
    ensures winner in st.creators && Wants(st.creators[winner], owner) && Succeeded(st.creators[winner])
    ensures st.creators[winner].pc.reply.id in st.db.nodes
    ensures st.db.nodes[st.creators[winner].pc.reply.id] == Node(owner, true)
  {
    winner := first;
    assert CreatorOk(st, st.creators[first]);
    if !Succeeded(st.creators[first]) {
      var n :| n in st.db.nodes && st.db.nodes[n] == Node(owner, true);
      NoneAtFirst(base, owner, n);
      winner := MakerOf(st, base, n);
    }
  }

  /** From any tables in which the owner has no worker-sys, with no deletions and no store failures,
      when every worker-sys creation for the owner has finished, exactly one of them has succeeded, the
      others were told that one exists, and the owner's only worker-sys node is the one created. */
  lemma ExactlyOneWorkerSys(trace: seq<State>, actions: seq<Action>, i: nat, owner: string, first: nat)
    returns (winner: nat)
    requires IsRun(trace, actions) && i < |trace| && !HasSys(trace[0].db.nodes, owner)
    requires forall j | 0 <= j < |actions| :: Quiet(actions[j])
    requires first in trace[i].creators && Wants(trace[i].creators[first], owner)
    requires forall c | c in trace[i].creators && Wants(trace[i].creators[c], owner) :: trace[i].creators[c].pc.Done?
    ensures winner in trace[i].creators
    ensures Wants(trace[i].creators[winner], owner) && Succeeded(trace[i].creators[winner])
    ensures forall c | c in trace[i].creators && Wants(trace[i].creators[c], owner) && c != winner ::
              trace[i].creators[c].pc == Done(Rejected(AlreadyExists))
    ensures forall n | n in trace[i].db.nodes ::
              trace[i].db.nodes[n] == Node(owner, true) <==> n == trace[i].creators[winner].pc.reply.id
  {
    QuietRun(trace, actions, i);
    RunKeepsClaims(trace, actions, i);
    var st, base := trace[i], trace[0].db.nodes;
    winner := SomeoneSucceeded(st, base, owner, first);
    hide IsRun, QuietInv, IdsOk, ClaimsOk, HasSys;
    forall c | c in st.creators && Wants(st.creators[c], owner) && c != winner
      ensures st.creators[c].pc == Done(Rejected(AlreadyExists))
    {
      OthersWereTold(st, base, owner, winner, c);
    }
    forall n | n in st.db.nodes && st.db.nodes[n] == Node(owner, true)
      ensures n == st.creators[winner].pc.reply.id
    {
      NodeIsTheWinners(st, base, owner, winner, n);
    }
  }

  /** The winner's node is there, so nobody else can have succeeded. */
  lemma OthersWereTold(st: State, base: map<string, Node>, owner: string, winner: nat, c: nat)
    requires QuietInv(st, base) && ClaimsOk(st) && winner in st.creators && c in st.creators && c != winner
    requires Wants(st.creators[winner], owner) && Succeeded(st.creators[winner])
    requires Wants(st.creators[c], owner) && st.creators[c].pc.Done?
    ensures st.creators[c].pc == Done(Rejected(AlreadyExists))
  {
    assert CreatorOk(st, st.creators[c]) && CreatorOk(st, st.creators[winner]);
    if Succeeded(st.creators[c]) {
      hide IdsOk, ClaimsOk, StoreOk;
      OneHasItsNode(st, c, winner);
      assert false;
    }
  }

  lemma NodeIsTheWinners(st: State, base: map<string, Node>, owner: string, winner: nat, n: string)
    requires QuietInv(st, base) && !HasSys(base, owner) && winner in st.creators
    requires n in st.db.nodes && st.db.nodes[n] == Node(owner, true)
    requires forall c | c in st.creators && Wants(st.creators[c], owner) && c != winner ::
               st.creators[c].pc == Done(Rejected(AlreadyExists))
    requires Succeeded(st.creators[winner])
    ensures n == st.creators[winner].pc.reply.id
  {
    NoneAtFirst(base, owner, n);
    var c := MakerOf(st, base, n);
  }

  lemma NoneAtFirst(base: map<string, Node>, owner: string, n: string)
    requires !HasSys(base, owner)
    ensures n in base ==> base[n] != Node(owner, true)
  {
  }

  // ---------- What a creation is told ----------

  /** A node with an ID of one creation is of its owner and type. */
  predicate NodeIsOurs(st: State, x: Creator) {
    var id := IdOf(x.pc);
    && (x.pc.Claiming? ==> x.sys)
    && (id.Some? && id.value in st.db.nodes ==> st.db.nodes[id.value] == Node(x.owner, x.sys))
  }

  ghost predicate NodesOk(st: State) {
    forall c | c in st.creators :: NodeIsOurs(st, st.creators[c])
  }

  /** What one step does to nodes that are already known of: they may go. */
  ghost predicate NodesStay(st: State, after: State) {
    forall n | n in after.db.nodes && n in st.used :: n in st.db.nodes && after.db.nodes[n] == st.db.nodes[n]
  }

  lemma AdvanceKeepsNodes(st: State, c: nat, step: Step, store: Store)
    requires IdsOk(st) && NodesOk(st) && c in st.creators && CanAdvance(st, c, step)
    ensures var after := Advanced(st, c, step, store);
            && NodesStay(st, after) && c in after.creators && after.creators == st.creators[c := after.creators[c]]
            && NodeIsOurs(after, after.creators[c])
  {
    assert NodeIsOurs(st, st.creators[c]);
    hide IdsOk, NodesOk, HasSys;
    NodesWereUsed(st);
    match step {
      case Count => case Seed(id) => case Claim => case Credit => case Hash => case Uncredit => case RollBack =>
    }
  }

  lemma OursStays(st: State, after: State, x: Creator)
    requires NodeIsOurs(st, x) && NodesStay(st, after) && (IdOf(x.pc).Some? ==> IdOf(x.pc).value in st.used)
    ensures NodeIsOurs(after, x)
  {
  }

  lemma StepKeepsNodes(st: State, a: Action)
    requires IdsOk(st) && NodesOk(st) && Enabled(st, a)
    ensures NodesOk(Apply(st, a))
  {
    hide Advanced, NodeIsOurs;
    var after := Apply(st, a);
    if a.Advance? {
      AdvanceKeepsNodes(st, a.c, a.step, a.store);
    }
    if a.Begin? {
      NewIsOurs(after, a.owner, a.sys);
    }
    forall d | d in after.creators && d in st.creators && after.creators[d] == st.creators[d]
      ensures NodeIsOurs(after, after.creators[d])
    {
      OursStays(st, after, st.creators[d]);
    }
  }

  lemma NewIsOurs(st: State, owner: string, sys: bool)
    ensures NodeIsOurs(st, Creator(owner, sys, Counting))
  {
  }

  lemma {:induction false} RunKeepsNodes(trace: seq<State>, actions: seq<Action>, i: nat)
    requires IsRun(trace, actions) && i < |trace|
    ensures NodesOk(trace[i])
  {
    hide IdsOk, ClaimsOk, Enabled, Apply, NodeIsOurs;
    if i > 0 {
      RunKeepsNodes(trace, actions, i - 1);
      RunKeepsClaims(trace, actions, i - 1);
      StepKeepsNodes(trace[i - 1], actions[i - 1]);
    }
  }

  /** Whatever the store does: a creation is told of success only when its node is there, of its owner and
      type, with its credential just stored, and, for a worker-sys, with its owner's claim. */
  lemma CreatedMeansStored(trace: seq<State>, actions: seq<Action>, i: nat, c: nat)
    requires IsRun(trace, actions) && i < |actions| && c in trace[i].creators && c in trace[i + 1].creators
    requires !Succeeded(trace[i].creators[c]) && Succeeded(trace[i + 1].creators[c])
    ensures var x, db := trace[i + 1].creators[c], trace[i + 1].db;
            && x.pc.reply.id in db.nodes && db.nodes[x.pc.reply.id] == Node(x.owner, x.sys)
            && x.pc.reply.id !in trace[i].db.hashes && x.pc.reply.id in db.hashes
            && (x.sys ==> x.owner in db.claims && db.claims[x.owner] == x.pc.reply.id)
  {
    RunKeepsNodes(trace, actions, i + 1);
    RunKeepsClaims(trace, actions, i + 1);
    assert Enabled(trace[i], actions[i]) && trace[i + 1] == Apply(trace[i], actions[i]);
    assert NodeIsOurs(trace[i + 1], trace[i + 1].creators[c]) && HoldsClaim(trace[i + 1], trace[i + 1].creators[c]);
    hide IsRun, IdsOk, ClaimsOk, NodesOk, HasSys;
    OnlyHashSucceeds(trace[i], actions[i], c);
  }

  lemma OnlyHashSucceeds(st: State, a: Action, c: nat)
    requires Enabled(st, a) && c in st.creators && c in Apply(st, a).creators
    requires !Succeeded(st.creators[c]) && Succeeded(Apply(st, a).creators[c])
    ensures var id, db := Apply(st, a).creators[c].pc.reply.id, Apply(st, a).db;
            id in db.nodes && id !in st.db.hashes && id in db.hashes
  {
    hide HasSys;
    match a
    case Advance(d, step, store) =>
      match step {
        case Count => case Seed(id) => case Claim => case Credit => case Hash => case Uncredit => case RollBack =>
      }
    case _ =>
  }

  /** A creation goes on from a statement only if that has done what it should: the seeded node is there and
      was not before, the claim is its own. */
  lemma OnwardMeansStored(trace: seq<State>, actions: seq<Action>, i: nat, c: nat)
    requires IsRun(trace, actions) && i < |actions| && actions[i].Advance? && actions[i].c == c
    ensures c in trace[i].creators && c in trace[i + 1].creators
    ensures var x, pc, db := trace[i].creators[c], trace[i + 1].creators[c].pc, trace[i + 1].db;
            && (actions[i].step.Seed? && (pc.Claiming? || pc.Crediting?) ==>
                  pc.id !in trace[i].db.nodes && pc.id in db.nodes && db.nodes[pc.id] == Node(x.owner, x.sys))
            && (actions[i].step.Claim? && pc.Crediting? ==>
                  x.owner !in trace[i].db.claims && x.owner in db.claims && db.claims[x.owner] == pc.id)
  {
    assert Enabled(trace[i], actions[i]) && trace[i + 1] == Apply(trace[i], actions[i]);
    hide IsRun, HasSys;
    var step := actions[i].step;
    match step {
      case Count => case Seed(id) => case Claim => case Credit => case Hash => case Uncredit => case RollBack =>
    }
  }

  /** The creation has put a credential and not yet taken it back. */
  predicate Credited(pc: Pc) {
    pc.Hashing? || pc.Uncrediting? || (pc.Done? && pc.reply.Created?)
  }

  predicate CreditedBy(creators: map<nat, Creator>, n: string) {
    exists c | c in creators :: Credited(creators[c].pc) && IdOf(creators[c].pc) == Some(n)
  }

  lemma AdvanceKeepsCredentials(st: State, c: nat, step: Step, store: Store, n: string)
    requires c in st.creators && CanAdvance(st, c, step) && n in Advanced(st, c, step, store).credentials
    requires n in st.credentials ==> CreditedBy(st.creators, n)
    ensures CreditedBy(Advanced(st, c, step, store).creators, n)
  {
    hide HasSys, ClaimRejected;
    var after := Advanced(st, c, step, store);
    OneAdvances(st, c, step, store);
    if n in st.credentials {
      var d :| d in st.creators && Credited(st.creators[d].pc) && IdOf(st.creators[d].pc) == Some(n);
      if d == c {
        match step {
          case Count => case Seed(id) => case Claim => case Credit => case Hash => case Uncredit => case RollBack =>
        }
      }
      assert Credited(after.creators[d].pc) && IdOf(after.creators[d].pc) == Some(n);
    } else {
      assert step.Credit?;
      assert Credited(after.creators[c].pc) && IdOf(after.creators[c].pc) == Some(n);
    }
  }

  /** Whatever the store does, no credential is left behind: each one was there at the start, or is that of
      a creation that has succeeded or is still at work on it. */
  lemma {:induction false} CredentialsAreSomeones(trace: seq<State>, actions: seq<Action>, i: nat, n: string)
    requires IsRun(trace, actions) && i < |trace| && n in trace[i].credentials && n !in trace[0].credentials
    ensures CreditedBy(trace[i].creators, n)
  {
    hide Enabled, Apply, CreditedBy;
    var st, a := trace[i - 1], actions[i - 1];
    if n in st.credentials {
      CredentialsAreSomeones(trace, actions, i - 1, n);
    }
    if a.Advance? {
      AdvanceIs(st, a);
      AdvanceKeepsCredentials(st, a.c, a.step, a.store, n);
    } else {
      OthersAddNone(st, a, n);
    }
  }

  lemma OthersAddNone(st: State, a: Action, n: string)
    requires Enabled(st, a) && !a.Advance? && n in Apply(st, a).credentials
    ensures n in st.credentials && (CreditedBy(st.creators, n) ==> CreditedBy(Apply(st, a).creators, n))
  {
    if CreditedBy(st.creators, n) {
      var d :| d in st.creators && Credited(st.creators[d].pc) && IdOf(st.creators[d].pc) == Some(n);
      assert Credited(Apply(st, a).creators[d].pc) && IdOf(Apply(st, a).creators[d].pc) == Some(n);
    }
  }

  /** The attempt that a creation is on. */
  function AttemptOf(pc: Pc): Option<nat> {
    match pc
    case Seeding(n) => Some(n)
    case Claiming(n, _) => Some(n)
    case Crediting(n, _) => Some(n)
    case Hashing(n, _) => Some(n)
    case Uncrediting(n, _) => Some(n)
    case RollingBack(n, _, _) => Some(n)
    case _ => None
  }

  function Seeds(actions: seq<Action>, i: nat, c: nat): nat
    requires i <= |actions|
  {
    if i == 0 then 0
    else
      var a := actions[i - 1];
      Seeds(actions, i - 1, c) + if a.Advance? && a.c == c && a.step.Seed? then 1 else 0
  }

  /** How often a creation that is at this point has seeded a node. */
  predicate SeededAs(pc: Pc, seeds: nat) {
    match pc
    case Counting => seeds == 0
    case Seeding(n) => seeds == n < 8
    case Done(Rejected(Exhausted)) => seeds == 8
    case Done(Rejected(AlreadyExists)) => seeds <= 8
    case Done(_) => 1 <= seeds <= 8
    case _ => AttemptOf(pc).Some? && seeds == AttemptOf(pc).value + 1 <= 8 && SoundVerdict(pc)
  }

  predicate SoundVerdict(pc: Pc) {
    pc.RollingBack? && pc.verdict.Some? ==> pc.verdict.value == AlreadyExists || pc.verdict.value == ClaimFailed
  }

  lemma AdvanceSeeds(st: State, c: nat, step: Step, store: Store, seeds: nat)
    requires c in st.creators && CanAdvance(st, c, step) && SeededAs(st.creators[c].pc, seeds)
    ensures var after := Advanced(st, c, step, store);
            c in after.creators && SeededAs(after.creators[c].pc, seeds + if step.Seed? then 1 else 0)
  {
    hide HasSys, ClaimRejected;
    match step {
      case Count => case Seed(id) => case Claim => case Credit => case Hash => case Uncredit => case RollBack =>
    }
  }

  lemma OthersUnmoved(st: State, a: Action, c: nat)
    requires Enabled(st, a) && c in Apply(st, a).creators && !(a.Advance? && a.c == c)
    ensures c in st.creators ==> Apply(st, a).creators[c] == st.creators[c]
    ensures c !in st.creators ==> Apply(st, a).creators[c].pc == Counting
  {
    if a.Advance? {
      OneAdvances(st, a.c, a.step, a.store);
    }
    hide Advanced;
  }

  lemma OneAdvances(st: State, c: nat, step: Step, store: Store)
    requires c in st.creators && CanAdvance(st, c, step)
    ensures var after := Advanced(st, c, step, store);
            c in after.creators && after.creators == st.creators[c := after.creators[c]]
  {
    hide HasSys, ClaimRejected;
    match step {
      case Count => case Seed(id) => case Claim => case Credit => case Hash => case Uncredit => case RollBack =>
    }
  }

  lemma {:induction false} SeedsAreCounted(trace: seq<State>, actions: seq<Action>, i: nat, c: nat)
    requires IsRun(trace, actions) && i < |trace|
    ensures if c in trace[i].creators then SeededAs(trace[i].creators[c].pc, Seeds(actions, i, c))
            else Seeds(actions, i, c) == 0
  {
    hide Enabled, Apply, SeededAs;
    if i > 0 {
      SeedsAreCounted(trace, actions, i - 1, c);
      var st, a := trace[i - 1], actions[i - 1];
      if a.Advance? && a.c == c {
        AdvanceIs(st, a);
        AdvanceSeeds(st, c, a.step, a.store, Seeds(actions, i - 1, c));
      } else if c in trace[i].creators {
        OthersUnmoved(st, a, c);
        CountingIsUnseeded();
      } else {
        CreatorsStay(st, a, c);
      }
    }
  }

  lemma AdvanceIs(st: State, a: Action)
    requires Enabled(st, a) && a.Advance?
    ensures a.c in st.creators && CanAdvance(st, a.c, a.step) && Apply(st, a) == Advanced(st, a.c, a.step, a.store)
  {
  }

  lemma CountingIsUnseeded()
    ensures SeededAs(Counting, 0)
  {
  }

  lemma CreatorsStay(st: State, a: Action, c: nat)
    requires Enabled(st, a) && c !in Apply(st, a).creators
    ensures c !in st.creators && !(a.Advance? && a.c == c)
  {
    if a.Advance? {
      OneAdvances(st, a.c, a.step, a.store);
    }
    hide Advanced;
  }

  /** A creation seeds at most eight nodes, and gives up for want of an ID only after eight. */
  lemma ExhaustedMeansEight(trace: seq<State>, actions: seq<Action>, i: nat, c: nat)
    requires IsRun(trace, actions) && i < |trace| && c in trace[i].creators
    ensures Seeds(actions, i, c) <= 8
    ensures trace[i].creators[c].pc == Done(Rejected(Exhausted)) ==> Seeds(actions, i, c) == 8
  {
    hide IsRun, Seeds;
    SeedsAreCounted(trace, actions, i, c);
  }

  /** Without deletions and store failures, a creation of an ordinary worker never fails. */
  lemma OrdinaryCreationsSucceed(trace: seq<State>, actions: seq<Action>, i: nat, c: nat)
    requires IsRun(trace, actions) && i < |trace| && c in trace[i].creators && !trace[i].creators[c].sys
    requires forall j | 0 <= j < |actions| :: Quiet(actions[j])
    ensures trace[i].creators[c].pc.Done? ==> Succeeded(trace[i].creators[c])
  {
    QuietRun(trace, actions, i);
    assert CreatorOk(trace[i], trace[i].creators[c]);
  }
}
