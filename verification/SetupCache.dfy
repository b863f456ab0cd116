/**
 The three levels a program's proof setup is looked up in: the process-wide once-cell,
 the config tree, and the computation itself. The local and the remote lookup share
 the cell and the tree and differ in the client they compute with.
 */
module SetupCache {
  import opened Jobs

  type Setup = Bytes
  type ProgramId = Bytes

  /** The caches, and how often a setup was computed since the database is empty. */
  datatype Cache = Cache(cell: Option<Setup>, tree: map<ProgramId, Setup>, computed: nat)

  /** A lookup with the setup its client would compute and the fate of its insert, or a restart of the process. */
  datatype Event = Lookup(client: Setup, insertOk: bool) | Restart

  function Found(c: Cache, id: ProgramId, e: Event): (Cache, Option<Setup>)
  {
    match e
    case Restart => (c.(cell := None), None)
    case Lookup(client, insertOk) =>
      if c.cell.Some? then (c, c.cell)
      else if id in c.tree then (c.(cell := Some(c.tree[id])), Some(c.tree[id]))
      else if insertOk then (Cache(Some(client), c.tree[id := client], c.computed + 1), Some(client))
      else (c.(computed := c.computed + 1), None)
  }

  class ProofSetups {
    const id: ProgramId
    var cell: Option<Setup>
    var configDb: map<ProgramId, Setup>
    ghost var computed: nat

    ghost function View(): Cache
      reads this
    {
      Cache(cell, configDb, computed)
    }

    constructor (id: ProgramId)
      ensures View() == Cache(None, map[], 0) && this.id == id
    {
      this.id := id;
      cell, configDb, computed := None, map[], 0;
    }

    /** The cell is filled only when everything before it succeeded. */
    method GetProofSetup(client: Setup, insertOk: bool) returns (r: Option<Setup>)
      modifies this
      ensures (View(), r) == Found(old(View()), id, Lookup(client, insertOk))
      ensures r.Some? ==> cell == r
      ensures old(cell).Some? || id in old(configDb) ==> configDb == old(configDb) && computed == old(computed)
      ensures old(cell).Some? ==> r == old(cell)
      ensures old(cell).None? && id in old(configDb) ==> r == Some(configDb[id])
      ensures old(cell).None? && id !in old(configDb) ==>
                && computed == old(computed) + 1
                && r == (if insertOk then Some(client) else None)
                && configDb == (if insertOk then old(configDb)[id := client] else old(configDb))
                && (r.None? ==> cell.None?)
    {
      if cell.Some? {
        return cell;
      }
      var setup: Setup;
      if id in configDb {
        setup := configDb[id];
      } else {
        setup := client;
        computed := computed + 1;
        if !insertOk {
          return None;
        }
        configDb := configDb[id := setup];
      }
      cell := Some(setup);
      r := cell;
    }
  }

  function After(c: Cache, id: ProgramId, es: seq<Event>): Cache
    decreases |es|
  {
    if es == [] then c else After(Found(c, id, es[0]).0, id, es[1..])
  }

  function FailedInserts(es: seq<Event>): nat {
    if es == [] then 0 else (if es[0].Lookup? && !es[0].insertOk then 1 else 0) + FailedInserts(es[1..])
  }

  /** Every level that is filled holds the program's setup, and the tree was filled before the cell. */
  predicate Agrees(c: Cache, id: ProgramId, setup: Setup) {
    && (id in c.tree ==> c.tree[id] == setup)
    && (c.cell.Some? ==> id in c.tree && c.cell.value == setup)
  }

  /**
   Over any sequence of local and remote lookups and restarts, with clients that agree:
   the levels agree with the computation, which runs once, and once more for every
   insert that failed.
   */
  lemma {:induction false} CacheAgrees(c: Cache, id: ProgramId, setup: Setup, es: seq<Event>)
    requires Agrees(c, id, setup)
    requires forall e :: e in es && e.Lookup? ==> e.client == setup
    ensures var c' := After(c, id, es);
            && Agrees(c', id, setup)
            && c'.computed + (if id in c.tree then 1 else 0)
                 <= c.computed + FailedInserts(es) + (if id in c'.tree then 1 else 0)
    decreases |es|
  {
    if es != [] {
      assert es[0] in es;
      CacheAgrees(Found(c, id, es[0]).0, id, setup, es[1..]);
    }
  }

  /** Every answered lookup answers the program's setup; only a failed insert goes unanswered. */
  lemma LookupAnswers(id: ProgramId, setup: Setup, es: seq<Event>, insertOk: bool)
    requires forall e :: e in es && e.Lookup? ==> e.client == setup
    ensures var c := After(Cache(None, map[], 0), id, es);
            var r := Found(c, id, Lookup(setup, insertOk)).1;
            && c.computed <= 1 + FailedInserts(es)
            && (r == Some(setup) || r == None)
            && (r == None <==> !insertOk && id !in c.tree)
  {
    CacheAgrees(Cache(None, map[], 0), id, setup, es);
  }

  /** A restart empties the cell: the next lookup is answered from the tree, whatever the cell held and the client says. */
  lemma RestartFallsBack(c: Cache, id: ProgramId, client: Setup, insertOk: bool)
    requires id in c.tree
    ensures var c' := Found(c, id, Restart).0;
            && Found(c', id, Lookup(client, insertOk)).1 == Some(c.tree[id])
            && Found(c', id, Lookup(client, insertOk)).0 == c.(cell := Some(c.tree[id]))
  {
  }
}
