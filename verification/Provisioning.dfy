/** Creating provisioned workers (service_credentials_runtime.go): check, seed, claim, store the
    credential, and roll back. An owner has at most one worker-sys. */
module Provisioning {
  import opened Prelude
  import opened Text

  const MAX_PROVISIONING_CREATE_ATTEMPTS := 8

  datatype Node = Node(owner: string, sys: bool)

  /** The rows that matter: worker_nodes with their labels, worker_sys_owner_claims, and
      worker_credentials. */
  datatype Database = Database(nodes: map<string, Node>, claims: map<string, string>, hashes: set<string>)

  datatype ProvisionError = OwnerRequired | InvalidWorkerType | AlreadyExists | ClaimFailed | Exhausted

  // ---------- The statements ----------

  predicate HasSys(nodes: map<string, Node>, owner: string) {
    exists n | n in nodes :: nodes[n] == Node(owner, true)
  }

  function Seeded(db: Database, id: string, owner: string, sys: bool): Database {
    if id in db.nodes then db else db.(nodes := db.nodes[id := Node(owner, sys)])
  }

  /** INSERT ... ON CONFLICT(owner_id) DO NOTHING, under the foreign key and the unique node_id. */
  predicate ClaimRejected(db: Database, owner: string, id: string) {
    owner !in db.claims && (id !in db.nodes || exists o | o in db.claims :: db.claims[o] == id)
  }

  predicate ClaimWins(db: Database, owner: string, id: string) {
    owner !in db.claims && !ClaimRejected(db, owner, id)
  }

  function Claimed(db: Database, owner: string, id: string): Database {
    if ClaimWins(db, owner, id) then db.(claims := db.claims[owner := id]) else db
  }

  predicate CanStoreHash(db: Database, id: string) {
    id in db.nodes && id !in db.hashes
  }

  function HashStored(db: Database, id: string): Database {
    if CanStoreHash(db, id) then db.(hashes := db.hashes + {id}) else db
  }

  /** Deleting a node cascades to its claim and its credential. */
  function Deleted(db: Database, id: string): Database {
    Database(db.nodes - {id}, map o | o in db.claims && db.claims[o] != id :: db.claims[o], db.hashes - {id})
  }

  /** What the foreign keys guarantee. */
  ghost predicate Consistent(db: Database) {
    && (forall o | o in db.claims :: db.claims[o] in db.nodes)
    && db.hashes <= db.nodes.Keys
  }

  /** Seeding a new node, doing anything to its own rows, and deleting it leaves no trace. */
  lemma RollbackLeavesNoTrace(db: Database, now: Database, id: string)
    requires Consistent(db) && id !in db.nodes
    requires now.nodes - {id} == db.nodes && now.hashes - {id} == db.hashes
    requires forall o :: (o in db.claims <==> o in now.claims && now.claims[o] != id)
    requires forall o | o in db.claims :: now.claims[o] == db.claims[o]
    ensures Deleted(now, id) == db
  {
  }

  /** What failed rollbacks can leave behind: nodes of this owner and type without a credential, and
      at most a claim of this owner on one of them. */
  ghost predicate Orphans(before: Database, after: Database, owner: string, sys: bool) {
    && (forall n | n in before.nodes :: n in after.nodes && after.nodes[n] == before.nodes[n])
    && (forall n | n in after.nodes && n !in before.nodes :: after.nodes[n] == Node(owner, sys))
    && (forall o | o in before.claims :: o in after.claims && after.claims[o] == before.claims[o])
    && (forall o | o in after.claims && o !in before.claims ::
          sys && o == owner && after.claims[o] in after.nodes && after.claims[o] !in before.nodes)
    && after.hashes == before.hashes
  }

  lemma NoOrphans(db: Database, owner: string, sys: bool)
    ensures Orphans(db, db, owner, sys)
  {
  }

  lemma OrphansAddUp(a: Database, b: Database, c: Database, owner: string, sys: bool)
    requires Orphans(a, b, owner, sys) && Orphans(b, c, owner, sys)
    ensures Orphans(a, c, owner, sys)
  {
  }

  lemma OldOnesStay(before: Database, after: Database, id: string, owner: string, sys: bool)
    requires Orphans(before, after, owner, sys)
    ensures id !in after.nodes ==> id !in before.nodes
    ensures owner !in after.claims ==> owner !in before.claims
  {
  }

  lemma AddedThenDeleted(before: Database, after: Database, id: string, owner: string, sys: bool)
    requires Consistent(before) && id !in before.nodes && after.nodes == before.nodes[id := Node(owner, sys)]
    requires after.claims == if sys then before.claims[owner := id] else before.claims
    requires sys ==> owner !in before.claims
    requires after.hashes == before.hashes + {id}
    ensures Deleted(after, id) == before
  {
  }

  // ---------- The code ----------

  class ProvisioningService {
    var db: Database
    var credentials: set<string>

    /** The IDs that attempts have been made with. */
    ghost var tried: seq<string>

    constructor ()
      ensures db == Database(map[], map[], {}) && credentials == {} && tried == []
    {
      db := Database(map[], map[], {});
      credentials := {};
      tried := [];
    }

    /** The result of the deletion is not looked at. */
    method RollBack(id: string, reliable: bool)
      modifies this`db
      ensures db == Deleted(old(db), id) || (!reliable && db == old(db))
    {
      var reached: bool := *;
      if reliable || reached {
        db := Deleted(db, id);
      }
    }

    /** One pass of the loop; None asks for another. Any insert may fail, and then it has not been
        applied; if the store is not `reliable`, the deletion of a rollback may fail as well. */
    method Attempt(id: string, owner: string, sys: bool, reliable: bool)
      returns (r: Option<Result<string, ProvisionError>>)
      requires Consistent(db)
      modifies this
      ensures Consistent(db) && tried == old(tried) + [id]
      ensures r.None? || r.value.Err? ==> credentials == old(credentials) && Orphans(old(db), db, owner, sys)
      ensures reliable && (r.None? || r.value.Err?) ==> db == old(db)
      ensures r.Some? && r.value.Ok? ==>
                && r.value.value == id && id !in old(db).nodes && id !in old(credentials)
                && (sys ==> owner !in old(db).claims)
                && db.nodes == old(db).nodes[id := Node(owner, sys)]
                && db.claims == (if sys then old(db).claims[owner := id] else old(db).claims)
                && db.hashes == old(db).hashes + {id}
                && credentials == old(credentials) + {id}
      ensures r.Some? && r.value.Err? ==>
                sys && (r.value.error == ClaimFailed || (r.value.error == AlreadyExists && owner in old(db).claims))
    {
      tried := tried + [id];
      var seedFails: bool, claimFails: bool, hashFails: bool := *, *, *;
      if seedFails || id in db.nodes {
        return None;
      }
      db := Seeded(db, id, owner, sys);
      if sys {
        if ClaimRejected(db, owner, id) || claimFails {
          RollbackLeavesNoTrace(old(db), db, id);
          RollBack(id, reliable);
          return Some(Err(ClaimFailed));
        }
        if owner in db.claims {
          RollbackLeavesNoTrace(old(db), db, id);
          RollBack(id, reliable);
          return Some(Err(AlreadyExists));
        }
        db := Claimed(db, owner, id);
      }
      hide ClaimRejected, ClaimWins;
      if id in credentials {
        RollbackLeavesNoTrace(old(db), db, id);
        RollBack(id, reliable);
        return None;
      }
      credentials := credentials + {id};
      if hashFails || !CanStoreHash(db, id) {
        credentials := credentials - {id};
        RollbackLeavesNoTrace(old(db), db, id);
        RollBack(id, reliable);
        return None;
      }
      db := HashStored(db, id);
      return Some(Ok(id));
    }

    /** The generated IDs are arbitrary: a collision costs an attempt. A success adds one node with its
        credential, and for a worker-sys the owner's only claim; a failure changes nothing. Beyond
        that, a store that is not `reliable`, so that a count or the deletion of a rollback may fail,
        gains orphans and nothing else. */
    method CreateProvisionedWorkerForOwner(ownerID: string, workerType: Option<bool>, reliable: bool)
      returns (r: Result<string, ProvisionError>)
      requires Consistent(db)
      modifies this
      ensures Consistent(db)
      ensures |tried| <= |old(tried)| + 8 && (r == Err(Exhausted) ==> |tried| == |old(tried)| + 8)
      ensures r == Err(OwnerRequired) <==> Trim(ownerID) == ""
      ensures r == Err(InvalidWorkerType) <==> Trim(ownerID) != "" && workerType.None?
      ensures r.Err? ==> credentials == old(credentials)
      ensures r.Err? ==> Orphans(old(db), db, Trim(ownerID), workerType == Some(true))
      ensures r.Ok? ==>
                var owner, sys := Trim(ownerID), workerType == Some(true);
                && r.value !in old(db).nodes && r.value !in old(credentials)
                && r.value in db.nodes && db.nodes[r.value] == Node(owner, sys)
                && (sys ==> owner in db.claims && db.claims[owner] == r.value && owner !in old(db).claims)
                && r.value in db.hashes && credentials == old(credentials) + {r.value}
                && Orphans(old(db), Deleted(db, r.value), owner, sys)
      ensures reliable ==> if r.Ok? then Deleted(db, r.value) == old(db) else db == old(db)
      ensures reliable && r.Ok? && workerType == Some(true) ==> !HasSys(old(db).nodes, Trim(ownerID))
      ensures reliable && r == Err(AlreadyExists) ==>
                workerType == Some(true)
                && (HasSys(old(db).nodes, Trim(ownerID)) || Trim(ownerID) in old(db).claims)
    {
      hide HasSys, Orphans, Deleted;
      var owner := Trim(ownerID);
      NoOrphans(db, owner, workerType == Some(true));
      if owner == "" {
        return Err(OwnerRequired);
      }
      if workerType.None? {
        return Err(InvalidWorkerType);
      }
      var sys := workerType.value;
      var counts: bool := *;
      if sys && HasSys(db.nodes, owner) && (reliable || counts) {
        return Err(AlreadyExists);
      }
      for attempt := 0 to MAX_PROVISIONING_CREATE_ATTEMPTS
        invariant Consistent(db) && Orphans(old(db), db, owner, sys) && credentials == old(credentials)
        invariant reliable ==> db == old(db)
        invariant |tried| == |old(tried)| + attempt
      {
        var id: string := *;
        ghost var before := db;
        var outcome := Attempt(id, owner, sys, reliable);
        if outcome.Some? && outcome.value.Ok? {
          OldOnesStay(old(db), before, id, owner, sys);
          AddedThenDeleted(before, db, id, owner, sys);
          return outcome.value;
        }
        OrphansAddUp(old(db), before, db, owner, sys);
        if outcome.Some? {
          return outcome.value;
        }
      }
      return Err(Exhausted);
    }
  }
}
