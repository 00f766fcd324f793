/** The pool snapshot (app/services/numbers.py): what it counts, and how the counts add up. */
module Statistics {
  import opened Basics
  import opened Crypto
  import opened Schema
  import opened Allocation
  import opened Sessions
  import opened Invariant

  datatype PoolStats = PoolStats(
    total: nat, enabled: nat, disabled: nat, inUse: nat, inCooldown: nat, free: nat, activeSessions: nat)

  function Enabled(db: Db): set<nat> {
    set n | n in db.numbers && db.numbers[n].enabled
  }

  function InUse(db: Db): set<nat> {
    set n | n in db.numbers && ActiveOn(db.sessions, n) != {}
  }

  function Cooling(db: Db, s: Settings): set<nat> {
    set n | n in db.numbers && CountedCooling(db, s, n)
  }

  function Free(db: Db, s: Settings): set<nat> {
    set n | n in db.numbers && CountedFree(db, s, n)
  }

  function ActiveSessions(db: Db): set<nat> {
    set sid | sid in db.sessions && db.sessions[sid].status == Active
  }

  /** The active sessions of these numbers. */
  function ActiveAmong(db: Db, ids: set<nat>): set<nat> {
    set sid | sid in db.sessions && db.sessions[sid].status == Active && db.sessions[sid].number in ids
  }

  lemma AmongGrows(db: Db, ids: set<nat>, n: nat)
    requires n !in ids
    ensures |ActiveAmong(db, ids + {n})| == |ActiveAmong(db, ids)| + |ActiveOn(db.sessions, n)|
  {
    assert ActiveAmong(db, ids + {n}) == ActiveAmong(db, ids) + ActiveOn(db.sessions, n);
    assert ActiveAmong(db, ids) !! ActiveOn(db.sessions, n);
  }

  lemma AmongAll(db: Db)
    requires Core(db)
    ensures ActiveAmong(db, db.numbers.Keys) == ActiveSessions(db)
  {
  }

  function One(b: bool): nat {
    if b then 1 else 0
  }

  function Count(counted: set<nat>, ids: set<nat>): nat {
    |ids * counted|
  }

  lemma CountNone(counted: set<nat>)
    ensures Count(counted, {}) == 0
  {
  }

  /** A count over one more number. */
  lemma CountGrows(counted: set<nat>, ids: set<nat>, n: nat)
    requires n !in ids
    ensures Count(counted, ids + {n}) == Count(counted, ids) + One(n in counted)
  {
    assert (ids + {n}) * counted == ids * counted + (if n in counted then {n} else {});
  }

  /** The tests of the loop body are the counted properties. */
  lemma Membership(db: Db, s: Settings, n: nat)
    requires n in db.numbers
    ensures var row, count := db.numbers[n], |ActiveOn(db.sessions, n)|;
            var released := row.releasedAt;
            && (n in Enabled(db) <==> row.enabled)
            && (n in InUse(db) <==> count > 0)
            && (n in Cooling(db, s) <==>
                  row.enabled && count == 0 && released.Some? && released.value > CooldownEdge(db, s))
            && (n in Free(db, s) <==>
                  row.enabled && count == 0 && (released.None? || released.value <= CooldownEdge(db, s)))
  {
    assert |ActiveOn(db.sessions, n)| == 0 <==> ActiveOn(db.sessions, n) == {};
  }

  /** `pool_stats`, a loop over the pool with its active counts, in any order. */
  method Snapshot(db: Db, s: Settings) returns (r: PoolStats)
    requires Core(db)
    ensures r.total == |db.numbers| && r.enabled == |Enabled(db)| && r.disabled == r.total - r.enabled
    ensures r.inUse == |InUse(db)| && r.inCooldown == |Cooling(db, s)| && r.free == |Free(db, s)|
    ensures r.activeSessions == |ActiveSessions(db)|
  {
    hide Core, ActiveSessions, ActiveAmong, Enabled, InUse, Cooling, Free, ActiveOn, CooldownEdge, Count;
    var enabled, inUse, cooling, free, active := 0, 0, 0, 0, 0;
    var rest := db.numbers.Keys;
    ghost var all, seen := rest, {};
    NoneAmong(db);
    CountNone(Enabled(db));
    CountNone(InUse(db));
    CountNone(Cooling(db, s));
    CountNone(Free(db, s));
    while rest != {}
      invariant rest <= all && seen == all - rest
      invariant enabled == Count(Enabled(db), seen) && inUse == Count(InUse(db), seen)
      invariant cooling == Count(Cooling(db, s), seen) && free == Count(Free(db, s), seen)
      invariant active == |ActiveAmong(db, seen)|
      decreases rest
    {
      var n :| n in rest;
      var count, released := |ActiveOn(db.sessions, n)|, db.numbers[n].releasedAt;
      CountGrows(Enabled(db), seen, n);
      CountGrows(InUse(db), seen, n);
      CountGrows(Cooling(db, s), seen, n);
      CountGrows(Free(db, s), seen, n);
      AmongGrows(db, seen, n);
      Membership(db, s, n);
      var on, idle := db.numbers[n].enabled, count == 0;
      var resting := released.Some? && released.value > CooldownEdge(db, s);
      enabled := enabled + One(on);
      inUse := inUse + One(count > 0);
      cooling := cooling + One(on && idle && resting);
      free := free + One(on && idle && !resting);
      active := active + count;
      SeenGrows(all, rest, n);
      rest, seen := rest - {n}, seen + {n};
    }
    assert seen == all;
    AmongAll(db);
    AllCounted(db, s);
    r := PoolStats(|db.numbers|, enabled, |db.numbers| - enabled, inUse, cooling, free, active);
  }

  lemma SeenGrows(all: set<nat>, rest: set<nat>, n: nat)
    requires n in rest && rest <= all
    ensures all - (rest - {n}) == all - rest + {n}
  {
  }

  lemma NoneAmong(db: Db)
    ensures |ActiveAmong(db, {})| == 0
  {
  }

  lemma AllCounted(db: Db, s: Settings)
    ensures var all := db.numbers.Keys;
            && Count(Enabled(db), all) == |Enabled(db)| && Count(InUse(db), all) == |InUse(db)|
            && Count(Cooling(db, s), all) == |Cooling(db, s)| && Count(Free(db, s), all) == |Free(db, s)|
    ensures |Enabled(db)| <= |db.numbers|
  {
    var all := db.numbers.Keys;
    assert all * Enabled(db) == Enabled(db) && all * InUse(db) == InUse(db);
    assert all * Cooling(db, s) == Cooling(db, s) && all * Free(db, s) == Free(db, s);
    SubsetCard(Enabled(db), all);
  }

  lemma DisjointCard<T>(a: set<T>, b: set<T>)
    requires a !! b
    ensures |a + b| == |a| + |b|
  {
  }

  lemma CountsPartition(db: Db, s: Settings)
    ensures var busy, cooling, free := Enabled(db) * InUse(db), Cooling(db, s), Free(db, s);
            Enabled(db) == busy + cooling + free && busy !! cooling && busy + cooling !! free
  {
    forall n | n in db.numbers
      ensures n in Enabled(db) <==> n in Enabled(db) * InUse(db) || n in Cooling(db, s) || n in Free(db, s)
    {
    }
  }

  /** The counts partition the enabled numbers: in use, cooling down, or free. */
  lemma CountsAddUp(db: Db, s: Settings)
    ensures |Enabled(db)| == |Enabled(db) * InUse(db)| + |Cooling(db, s)| + |Free(db, s)|
  {
    var busy, cooling, free := Enabled(db) * InUse(db), Cooling(db, s), Free(db, s);
    CountsPartition(db, s);
    hide Enabled, InUse, Cooling, Free;
    DisjointCard(busy, cooling);
    DisjointCard(busy + cooling, free);
  }
}
