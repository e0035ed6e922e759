/** Automatic names for reader slots, and the append-only log that keeps them from being reused. */
module SlotNames {
  import opened Text

  const POOL: seq<string> := [
    "Moisés", "Davi", "Noé", "Abraão", "Salomão",
    "Elias", "Samuel", "Daniel", "José", "Josué",
    "Pedro", "Paulo", "João", "Isaías", "Jeremias",
    "Gideão", "Calebe", "Débora", "Ester", "Rute"
  ]

  /** The fallback name with number `n`. */
  function Reader(n: nat): string {
    "Leitor " + Decimal(n)
  }

  lemma ReaderInjective(m: nat, n: nat)
    requires Reader(m) == Reader(n)
    ensures m == n
  {
    assert Decimal(m) == Reader(m)[7..] && Decimal(n) == Reader(n)[7..];
    DecimalInjective(m, n);
  }

  lemma ReaderNotInPool(n: nat)
    ensures Reader(n) !in POOL
  {
    assert Reader(n)[0] == 'L';
    assert forall i :: 0 <= i < |POOL| ==> POOL[i][0] != 'L';
  }

  datatype SlotKey = SlotKey(locationPath: string, lun: int)
  datatype Slot = Slot(id: nat, alias: string)

  /** One automatic assignment: the name put on a slot and whether the log recorded it. */
  datatype Handed = Handed(alias: string, logged: bool)

  /** The slot table, the log of automatic names, and (history) all names ever handed out. */
  datatype Table = Table(slots: map<SlotKey, Slot>, nextId: nat, log: seq<string>, handed: seq<Handed>)
  {
    function Aliases(): set<string> {
      set k | k in slots :: slots[k].alias
    }
  }

  function Elements(s: seq<string>): set<string> {
    set x | x in s
  }

  /** `name` is the first pool name not in use or, with the pool exhausted, the numbered one. */
  predicate IsNext(inUse: set<string>, count: nat, name: string) {
    || (exists k :: 0 <= k < |POOL| && name == POOL[k] && name !in inUse && forall i :: 0 <= i < k ==> POOL[i] in inUse)
    || ((forall i :: 0 <= i < |POOL| ==> POOL[i] in inUse) && name == Reader(count + 1))
  }

  /** Every log entry is a pool name the log did not have before, or numbered by its position. */
  predicate LogOk(log: seq<string>) {
    forall i :: 0 <= i < |log| ==> (log[i] in POOL && log[i] !in log[..i]) || log[i] == Reader(i + 1)
  }

  /** A name handed out that the log recorded is never handed out again. */
  predicate HandedOk(t: Table) {
    && (forall i :: 0 <= i < |t.handed| && t.handed[i].logged ==> t.handed[i].alias in t.log)
    && (forall i, j :: 0 <= i < j < |t.handed| && t.handed[i].logged ==> t.handed[i].alias != t.handed[j].alias)
  }

  /** No two slots have the same id. */
  predicate IdsOk(t: Table) {
    && (forall k :: k in t.slots ==> t.slots[k].id < t.nextId)
    && (forall k, l :: k in t.slots && l in t.slots && t.slots[k].id == t.slots[l].id ==> k == l)
  }

  predicate TableOk(t: Table) {
    LogOk(t.log) && HandedOk(t) && IdsOk(t)
  }

  /** The log never names two readers alike. */
  lemma LogDistinct(log: seq<string>, i: nat, j: nat)
    requires LogOk(log) && i < j < |log|
    ensures log[i] != log[j]
  {
    if log[i] == log[j] {
      assert log[i] in log[..j] by {
        assert log[..j][i] == log[i];
      }
      ReaderNotInPool(j + 1);
      if log[i] == Reader(i + 1) {
        ReaderInjective(i + 1, j + 1);
      }
    }
  }

  /** The next name is one the log does not have. */
  lemma NextIsNew(log: seq<string>, current: set<string>, name: string)
    requires LogOk(log) && IsNext(Elements(log) + current, |log|, name)
    ensures name !in log && LogOk(log + [name])
  {
    if name == Reader(|log| + 1) {
      ReaderNotInPool(|log| + 1);
      forall i | 0 <= i < |log| ensures log[i] != name {
        if log[i] == name {
          ReaderInjective(i + 1, |log| + 1);
        }
      }
    }
    var more := log + [name];
    forall i | 0 <= i < |more| ensures (more[i] in POOL && more[i] !in more[..i]) || more[i] == Reader(i + 1) {
      assert more[..i] == log[..i];
      if i < |log| {
        assert more[i] == log[i];
      } else {
        assert log[..i] == log;
      }
    }
  }

  /** The next name was handed out before exactly if an assignment that the log missed bears it. */
  lemma HandedAgainExactlyWhen(t: Table, name: string)
    requires TableOk(t) && IsNext(Elements(t.log) + t.Aliases(), |t.log|, name)
    ensures (exists h :: h in t.handed && h.alias == name) <==> Handed(name, false) in t.handed
  {
    NextIsNew(t.log, t.Aliases(), name);
    forall h | h in t.handed && h.alias == name ensures h == Handed(name, false) {
      var i :| 0 <= i < |t.handed| && t.handed[i] == h;
    }
  }

  /** The pool has twenty names, all different. */
  lemma PoolIsDistinct(i: nat, k: nat)
    requires i < k < |POOL|
    ensures |POOL| == 20 && POOL[i] != POOL[k]
  {
  }

  /** While the pool has a name that is not in use, the next name is the first such; after that it is the numbered
      one. */
  lemma NextIsFirstFree(inUse: set<string>, count: nat, name: string, k: nat)
    requires IsNext(inUse, count, name) && k < |POOL|
    ensures POOL[k] !in inUse ==> name in POOL[..k + 1] && name !in inUse
    ensures (forall i :: 0 <= i < |POOL| ==> POOL[i] in inUse) ==> name == "Leitor " + Decimal(count + 1)
  {
    if POOL[k] !in inUse {
      var i :| 0 <= i < |POOL| && name == POOL[i] && name !in inUse && forall l :: 0 <= l < i ==> POOL[l] in inUse;
      assert i <= k;
      assert POOL[..k + 1][i] == name;
    }
  }

  /** The table after handing out `name` for the slot `key`. */
  function Assign(t: Table, key: SlotKey, name: string, logged: bool): Table {
    Upserted(t, key, name).(log := if logged then t.log + [name] else t.log,
                            handed := t.handed + [Handed(name, logged)])
  }

  /** Creates or renames the slot at `key`. */
  function Upserted(t: Table, key: SlotKey, alias: string): Table {
    if key in t.slots then t.(slots := t.slots[key := t.slots[key].(alias := alias)])
    else t.(slots := t.slots[key := Slot(t.nextId, alias)], nextId := t.nextId + 1)
  }

  lemma AssignKeeps(t: Table, key: SlotKey, name: string, logged: bool)
    requires TableOk(t) && IsNext(Elements(t.log) + t.Aliases(), |t.log|, name)
    ensures TableOk(Assign(t, key, name, logged))
  {
    NextIsNew(t.log, t.Aliases(), name);
  }

  /** One change to slots and log: an automatic name, a calibration, a rename, a removal. */
  datatype Op =
    | AutoName(key: SlotKey, name: string, logged: bool)
    | Calibrate(key: SlotKey, alias: string)
    | Relabel(id: nat, alias: string)
    | Remove(id: nat)

  predicate CanApply(t: Table, op: Op) {
    op.AutoName? ==> IsNext(Elements(t.log) + t.Aliases(), |t.log|, op.name)
  }

  function Apply(t: Table, op: Op): Table {
    match op
    case AutoName(key, name, logged) => Assign(t, key, name, logged)
    case Calibrate(key, alias) => Upserted(t, key, alias)
    case Relabel(id, alias) => t.(slots := map k | k in t.slots ::
        if t.slots[k].id == id then Slot(id, alias) else t.slots[k])
    case Remove(id) => t.(slots := map k | k in t.slots && t.slots[k].id != id :: t.slots[k])
  }

  /** Relabelling or removing by id touches at most one slot. */
  lemma OneSlot(t: Table, key: SlotKey, alias: string)
    requires IdsOk(t) && key in t.slots
    ensures var id := t.slots[key].id;
      && Apply(t, Relabel(id, alias)).slots == t.slots[key := Slot(id, alias)]
      && Apply(t, Remove(id)).slots == t.slots - {key}
  {
  }

  lemma ApplyKeeps(t: Table, op: Op)
    requires TableOk(t) && CanApply(t, op)
    ensures TableOk(Apply(t, op))
  {
    if op.AutoName? {
      AssignKeeps(t, op.key, op.name, op.logged);
    }
  }

  function Replay(t: Table, ops: seq<Op>): Table {
    if ops == [] then t else Apply(Replay(t, ops[..|ops| - 1]), ops[|ops| - 1])
  }

  predicate Possible(t: Table, ops: seq<Op>) {
    forall i :: 0 <= i < |ops| ==> CanApply(Replay(t, ops[..i]), ops[i])
  }

  /** Over any sequence of automatic names, calibrations, renames and removals, with log
      appends failing or not: the log has no name twice, and a name is handed out a second
      time only if the log append of its earlier assignment failed. */
  lemma {:induction false} NeverReused(t: Table, ops: seq<Op>)
    requires TableOk(t) && Possible(t, ops)
    ensures TableOk(Replay(t, ops))
  {
    if ops != [] {
      var before, op := ops[..|ops| - 1], ops[|ops| - 1];
      forall i | 0 <= i < |before| ensures CanApply(Replay(t, before[..i]), before[i]) {
        assert before[..i] == ops[..i];
      }
      NeverReused(t, before);
      ApplyKeeps(Replay(t, before), op);
    }
  }

  /** The condition is needed: after a failed append, deleting the slot frees its name. */
  lemma FailedAppendReuses(key: SlotKey)
    ensures var t := Table(map[], 1, [], []);
      var ops := [AutoName(key, POOL[0], false), Remove(1), AutoName(key, POOL[0], true)];
      Possible(t, ops) && Replay(t, ops).handed == [Handed(POOL[0], false), Handed(POOL[0], true)]
  {
    var t := Table(map[], 1, [], []);
    var ops := [AutoName(key, POOL[0], false), Remove(1), AutoName(key, POOL[0], true)];
    assert ops[..2][..1] == ops[..1] && ops[..1][..0] == [] && ops[..3] == ops && ops[..0] == [];
    var t1 := Apply(t, ops[0]);
    var t2 := Apply(t1, ops[1]);
    assert Replay(t, ops[..1]) == t1;
    assert Replay(t, ops[..2]) == t2;
    assert t2.slots == map[] && t2.Aliases() == {} && t.Aliases() == {};
    assert IsNext({}, 0, POOL[0]);
    assert Elements(t.log) + t.Aliases() == {} == Elements(t2.log) + t2.Aliases();
    assert Replay(t, ops) == Apply(t2, ops[2]);
  }

  /** The repositories behind the names. */
  class SlotStore {
    var table: Table

    predicate Valid()
      reads this
    {
      TableOk(table)
    }

    constructor ()
      ensures Valid() && table == Table(map[], 1, [], [])
    {
      table := Table(map[], 1, [], []);
    }

    method FindByKey(key: SlotKey) returns (slot: Option<Slot>)
      ensures slot == if key in table.slots then Some(table.slots[key]) else None
    {
      slot := if key in table.slots then Some(table.slots[key]) else None;
    }

    /** Names the slot at `key`, which is created if need be, under an id no slot has. */
    method Upsert(key: SlotKey, alias: string) returns (slot: Slot)
      requires Valid()
      modifies this
      ensures Valid() && table == Apply(old(table), Calibrate(key, alias))
      ensures table.slots == old(table).slots[key := slot] && slot.alias == alias
      ensures forall k :: k in old(table).slots ==> (old(table).slots[k].id == slot.id <==> k == key)
    {
      ApplyKeeps(table, Calibrate(key, alias));
      table := Upserted(table, key, alias);
      slot := table.slots[key];
    }

    /** Renames the slot with row id `id`, and no other; false if there is none. */
    method Rename(id: nat, alias: string) returns (found: bool)
      requires Valid()
      modifies this
      ensures Valid() && table == Apply(old(table), Relabel(id, alias))
      ensures if found
              then exists key :: key in old(table).slots && old(table).slots[key].id == id
                                 && table == old(table).(slots := old(table).slots[key := Slot(id, alias)])
              else table == old(table) && forall key :: key in table.slots ==> table.slots[key].id != id
    {
      ghost var was := table;
      found := exists k :: k in table.slots && table.slots[k].id == id;
      ApplyKeeps(table, Relabel(id, alias));
      table := table.(slots := map k | k in table.slots ::
        if table.slots[k].id == id then Slot(id, alias) else table.slots[k]);
      if key :| key in was.slots && was.slots[key].id == id {
        OneSlot(was, key, alias);
      } else {
        assert table.slots == was.slots;
      }
    }

    /** Removes the slot with row id `id`, and no other; false if there is none. */
    method Delete(id: nat) returns (found: bool)
      requires Valid()
      modifies this
      ensures Valid() && table == Apply(old(table), Remove(id))
      ensures if found
              then exists key :: key in old(table).slots && old(table).slots[key].id == id
                                 && table == old(table).(slots := old(table).slots - {key})
              else table == old(table) && forall key :: key in table.slots ==> table.slots[key].id != id
    {
      ghost var was := table;
      found := exists k :: k in table.slots && table.slots[k].id == id;
      ApplyKeeps(table, Remove(id));
      table := table.(slots := map k | k in table.slots && table.slots[k].id != id :: table.slots[k]);
      if key :| key in was.slots && was.slots[key].id == id {
        OneSlot(was, key, "");
      } else {
        assert table.slots == was.slots;
      }
    }

    /** Every alias ever assigned automatically, and the number of log entries. */
    method UsedAliases() returns (used: set<string>, n: nat)
      ensures used == Elements(table.log) && n == |table.log|
    {
      used, n := {}, 0;
      while n < |table.log|
        invariant n <= |table.log| && used == Elements(table.log[..n])
      {
        assert table.log[..n + 1] == table.log[..n] + [table.log[n]];
        used := used + {table.log[n]};
        n := n + 1;
      }
      assert table.log[..n] == table.log;
    }

    /** Names a never-seen slot. `None` if a table could not be read or written; if only reading the
        slot back failed, it has its name all the same, and the log does not know. The log append
        may fail without anybody noticing. None of this happens if `smooth`. */
    method AutoNameSlot(key: SlotKey, smooth: bool) returns (slot: Option<Slot>)
      requires Valid()
      modifies this
      ensures Valid()
      ensures smooth ==> slot.Some? && table.log == old(table).log + [slot.value.alias]
      ensures slot.None? ==>
                table == old(table) ||
                exists name :: CanApply(old(table), AutoName(key, name, false))
                               && table == Apply(old(table), AutoName(key, name, false))
      ensures slot.Some? ==>
                && table.slots == old(table).slots[key := slot.value]
                && (table.log == old(table).log || table.log == old(table).log + [slot.value.alias])
                && (key in old(table).slots ==> slot.value.id == old(table).slots[key].id)
      ensures slot.Some? ==> exists logged :: var op := AutoName(key, slot.value.alias, logged);
                CanApply(old(table), op) && table == Apply(old(table), op)
    {
      var ok: bool, logged: bool := *, *;
      if !ok && !smooth {
        return None;
      }
      var used, count := UsedAliases();
      var name := NextSlotName(used, count, table.Aliases());
      var readBack: bool := *;
      readBack := readBack || smooth;
      logged := (logged || smooth) && readBack;
      ghost var op := AutoName(key, name, logged);
      ApplyKeeps(table, op);
      assert CanApply(table, op);
      var s := Upsert(key, name);
      table := table.(log := if logged then table.log + [name] else table.log,
                      handed := table.handed + [Handed(name, logged)]);
      slot := if readBack then Some(s) else None;
    }
  }

  method NextSlotName(everAssigned: set<string>, assignedCount: nat, current: set<string>) returns (name: string)
    ensures IsNext(everAssigned + current, assignedCount, name)
  {
    var inUse := everAssigned + current;
    for k := 0 to |POOL|
      invariant forall i :: 0 <= i < k ==> POOL[i] in inUse
    {
      if POOL[k] !in inUse {
        return POOL[k];
      }
    }
    name := Reader(assignedCount + 1);
  }
}
