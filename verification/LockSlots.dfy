/** The in-process half of the project lock: `localLocks` and its `localLock` slots.

    A `*localLock` is a heap object with an identity, and an invocation keeps the pointer it
    joined while the table may forget or replace the entry.  Identities are modelled as
    `SlotId`s, so "the entry was replaced under a holder" can be said at all.

    The table is generic in what it is keyed by: one process keys it by lock path, and the
    step system of `LockProtocol` keys the union of all processes' tables by process and path.
 */
module LockSlots {

  type SlotId = nat

  /** `refs` counts the callers between join and leave of each slot; `full` holds the slots
      whose capacity-1 channel is taken. */
  datatype Table<K> = Table(byPath: map<K, SlotId>, refs: map<SlotId, int>, full: set<SlotId>, next: SlotId)

  /** Every entry names an allocated slot, no two paths share one, and ids are never reused. */
  ghost predicate ValidTable<K(!new)>(t: Table<K>) {
    && (forall p :: p in t.byPath ==> t.byPath[p] in t.refs)
    && (forall p, q :: p in t.byPath && q in t.byPath && t.byPath[p] == t.byPath[q] ==> p == q)
    && (forall e :: e in t.refs || e in t.full ==> e < t.next)
  }

  /** The slot of `path` after a join: the entry already there, or a fresh one. */
  function JoinedSlot<K>(t: Table<K>, path: K): SlotId {
    if path in t.byPath then t.byPath[path] else t.next
  }

  function Refs<K>(t: Table<K>, e: SlotId): int {
    if e in t.refs then t.refs[e] else 0
  }

  function Join<K>(t: Table<K>, path: K): Table<K> {
    var e := JoinedSlot(t, path);
    if path in t.byPath then
      t.(refs := t.refs[e := Refs(t, e) + 1])
    else
      Table(t.byPath[path := e], t.refs[e := 1], t.full, e + 1)
  }

  function Leave<K>(t: Table<K>, path: K, e: SlotId): Table<K> {
    var n := Refs(t, e) - 1;
    Table(if n == 0 then t.byPath - {path} else t.byPath, t.refs[e := n], t.full, t.next)
  }

  function Fill<K>(t: Table<K>, e: SlotId): Table<K> {
    t.(full := t.full + {e})
  }

  function Empty<K>(t: Table<K>, e: SlotId): Table<K> {
    t.(full := t.full - {e})
  }

  /** What a caller can observe of `path`: its count and whether its slot is taken. */
  function RefsOf<K>(t: Table<K>, path: K): int {
    if path in t.byPath then Refs(t, t.byPath[path]) else 0
  }

  predicate FullOf<K>(t: Table<K>, path: K) {
    path in t.byPath && t.byPath[path] in t.full
  }

  lemma JoinEffect<K(!new)>(t: Table<K>, path: K)
    requires ValidTable(t)
    ensures var u := Join(t, path);
            && ValidTable(u)
            && u.byPath == t.byPath[path := JoinedSlot(t, path)]
            && (forall p :: RefsOf(u, p) == RefsOf(t, p) + if p == path then 1 else 0)
            && (forall p :: FullOf(u, p) == FullOf(t, p))
  {
    if path in t.byPath {
      assert Join(t, path).byPath == t.byPath[path := JoinedSlot(t, path)];
    }
  }

  /** Leaving drops one count of its own path alone, and the entry with the last count. */
  lemma LeaveEffect<K(!new)>(t: Table<K>, path: K)
    requires ValidTable(t) && path in t.byPath
    ensures var u := Leave(t, path, t.byPath[path]);
            && ValidTable(u)
            && u.byPath == (if RefsOf(t, path) == 1 then t.byPath - {path} else t.byPath)
            && (forall p :: RefsOf(u, p) == RefsOf(t, p) - if p == path then 1 else 0)
            && (forall p :: FullOf(u, p) == (p in u.byPath && FullOf(t, p)))
  {
  }

  /** The process-wide table.  Each method body is one critical section of `ls.mu`, or one
      channel operation on a slot. */
  class LocalLocks<K(==,!new)> {
    var byPath: map<K, SlotId>
    var refs: map<SlotId, int>
    var full: set<SlotId>
    var next: SlotId

    ghost function Value(): Table<K>
      reads this
    {
      Table(byPath, refs, full, next)
    }

    constructor ()
      ensures ValidTable(Value()) && byPath == map[]
    {
      byPath, refs, full, next := map[], map[], {}, 0;
    }

    method JoinPath(path: K) returns (e: SlotId)
      requires ValidTable(Value())
      modifies this
      ensures ValidTable(Value())
      ensures e == JoinedSlot(old(Value()), path) && Value() == Join(old(Value()), path)
      ensures path in byPath && byPath[path] == e
    {
      JoinEffect(Value(), path);
      if path in byPath {
        e := byPath[path];
      } else {
        e := next;
        refs := refs[e := 0];
        byPath := byPath[path := e];
        next := next + 1;
      }
      refs := refs[e := refs[e] + 1];
      assert refs == Join(old(Value()), path).refs;
    }

    method LeavePath(path: K, e: SlotId)
      requires ValidTable(Value()) && path in byPath && byPath[path] == e
      modifies this
      ensures ValidTable(Value()) && Value() == Leave(old(Value()), path, e)
    {
      LeaveEffect(Value(), path);
      refs := refs[e := refs[e] - 1];
      if refs[e] == 0 {
        byPath := byPath - {path};
      }
    }

    method TryTake(e: SlotId) returns (ok: bool)
      modifies this`full
      ensures ok == (e !in old(full))
      ensures Value() == if ok then Fill(old(Value()), e) else old(Value())
    {
      ok := e !in full;
      if ok {
        full := full + {e};
      }
    }

    /** `give` receives from the channel, so an empty slot would block it for ever; every
        caller meets this precondition, see `LockProtocol.GiveNeverBlocks`. */
    method Give(e: SlotId)
      requires e in full
      modifies this`full
      ensures Value() == Empty(old(Value()), e)
    {
      full := full - {e};
    }
  }
}
