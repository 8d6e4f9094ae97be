/**
 * The browser's two Web Storage areas as the pages use them directly: each is a map
 * from key to string plus one failure flag per call: `getItem`, `setItem` and
 * `removeItem` may each throw. A store over its quota throws only on `setItem`; a store
 * the browser blocks throws on all three.
 */
module WebStorage {
  import opened Wrappers

  datatype Store = Store(items: map<string, string>, readThrows: bool, setThrows: bool, removeThrows: bool)

  /** A store over its quota: `setItem` throws QuotaExceededError, reads and removals work. */
  function FullQuota(items: map<string, string>): Store {
    Store(items, false, true, false)
  }

  /** A store the browser refuses access to: every call throws. */
  function Blocked(items: map<string, string>): Store {
    Store(items, true, true, true)
  }

  datatype Area = Session | Local

  datatype Browser = Browser(session: Store, local: Store)

  function At(b: Browser, a: Area): Store {
    match a
    case Session => b.session
    case Local => b.local
  }

  function With(b: Browser, a: Area, st: Store): (r: Browser)
    ensures At(r, a) == st
    ensures forall other :: other != a ==> At(r, other) == At(b, other)
  {
    match a
    case Session => b.(session := st)
    case Local => b.(local := st)
  }

  /** `getItem` on a store whose reads work: the value, or null. */
  function Get(st: Store, k: string): (r: Option<string>)
    ensures r.Some? <==> k in st.items
    ensures r.Some? ==> r.value == st.items[k]
  {
    if k in st.items then Some(st.items[k]) else None
  }

  // ---------------------------------------------------------------------------
  // Reads: a `getItem(..) ?? getItem(..) ?? ...` chain outside any try block
  // ---------------------------------------------------------------------------

  /** The outcome of a read chain: a throw that escapes, or the value (null as `None`). */
  datatype Read = ReadThrew | ReadValue(value: Option<string>)

  predicate Misses(b: Browser, rd: (Area, string)) {
    !At(b, rd.0).readThrows && rd.1 !in At(b, rd.0).items
  }

  predicate AllMiss(b: Browser, rds: seq<(Area, string)>) {
    forall j :: 0 <= j < |rds| ==> Misses(b, rds[j])
  }

  /** Evaluate the chain left to right: the first non-null value wins; a throwing read aborts it. */
  function ReadFirst(b: Browser, rds: seq<(Area, string)>): Read
    decreases |rds|
  {
    if rds == [] then ReadValue(None)
    else
      var st := At(b, rds[0].0);
      if st.readThrows then ReadThrew
      else if rds[0].1 in st.items then ReadValue(Some(st.items[rds[0].1]))
      else ReadFirst(b, rds[1..])
  }

  /**
   * The chain's meaning: it yields null exactly when every read misses; it yields the value
   * stored under the i-th (area, key) when every earlier read misses and that one hits;
   * it throws when every earlier read misses and the i-th store throws.
   */
  lemma {:induction false} ReadFirstSpec(b: Browser, rds: seq<(Area, string)>, i: nat)
    requires i < |rds| && AllMiss(b, rds[..i])
    ensures At(b, rds[i].0).readThrows ==> ReadFirst(b, rds) == ReadThrew
    ensures !At(b, rds[i].0).readThrows && rds[i].1 in At(b, rds[i].0).items ==>
      ReadFirst(b, rds) == ReadValue(Some(At(b, rds[i].0).items[rds[i].1]))
    ensures Misses(b, rds[i]) ==> ReadFirst(b, rds) == ReadFirst(b, rds[i + 1..])
    decreases i
  {
    if i > 0 {
      assert Misses(b, rds[..i][0]);
      var before := rds[1..][..i - 1];
      forall j | 0 <= j < i - 1 ensures Misses(b, before[j]) {
        assert before[j] == rds[..i][j + 1];
      }
      ReadFirstSpec(b, rds[1..], i - 1);
      assert rds[1..][i - 1] == rds[i];
      assert rds[1..][i - 1 + 1..] == rds[i + 1..];
    }
  }

  /** A chain in which every read misses yields null, and only such a chain does. */
  lemma {:induction false} ReadFirstNull(b: Browser, rds: seq<(Area, string)>)
    ensures ReadFirst(b, rds) == ReadValue(None) <==> AllMiss(b, rds)
    decreases |rds|
  {
    if rds != [] {
      ReadFirstNull(b, rds[1..]);
      if AllMiss(b, rds[1..]) && Misses(b, rds[0]) {
        forall j | 0 <= j < |rds| ensures Misses(b, rds[j]) {
          if j > 0 { assert rds[j] == rds[1..][j - 1]; }
        }
      }
      if AllMiss(b, rds) {
        assert Misses(b, rds[0]);
        forall j | 0 <= j < |rds| - 1 ensures Misses(b, rds[1..][j]) {
          assert rds[1..][j] == rds[j + 1];
        }
      }
    }
  }

  // ---------------------------------------------------------------------------
  // Writes: a sequence of `setItem` / `removeItem` calls inside one try block
  // ---------------------------------------------------------------------------

  datatype WriteOp = SetOp(area: Area, key: string, value: string) | RemoveOp(area: Area, key: string)

  /** The item an operation leaves under its own key. */
  function Effect(op: WriteOp): Option<string> {
    match op
    case SetOp(_, _, v) => Some(v)
    case RemoveOp(_, _) => None
  }

  /** Whether the store throws on this call: `setItem` and `removeItem` fail independently. */
  predicate Rejects(st: Store, op: WriteOp) {
    match op
    case SetOp(_, _, _) => st.setThrows
    case RemoveOp(_, _) => st.removeThrows
  }

  /** A write the store accepts; only the items change, never the failure flags. */
  function Apply(st: Store, op: WriteOp): (r: Store)
    ensures r.(items := st.items) == st
    ensures Get(r, op.key) == Effect(op)
    ensures forall k :: k != op.key ==> Get(r, k) == Get(st, k)
  {
    match op
    case SetOp(_, k, v) => st.(items := st.items[k := v])
    case RemoveOp(_, k) => st.(items := st.items - {k})
  }

  /** The stores after the block, and whether a write threw (ending the block there). */
  datatype Written = Written(browser: Browser, threw: bool)

  function RunWrites(b: Browser, ops: seq<WriteOp>): Written
    decreases |ops|
  {
    if ops == [] then Written(b, false)
    else
      var st := At(b, ops[0].area);
      if Rejects(st, ops[0]) then Written(b, true)
      else RunWrites(With(b, ops[0].area, Apply(st, ops[0])), ops[1..])
  }

  /** A block of one write: it throws exactly when its store does, and otherwise applies it. */
  lemma RunWritesSingle(b: Browser, op: WriteOp)
    ensures RunWrites(b, [op]) ==
      if Rejects(At(b, op.area), op) then Written(b, true)
      else Written(With(b, op.area, Apply(At(b, op.area), op)), false)
  {
    assert [op][1..] == [];
  }

  /** The two browsers differ at most in their items. */
  predicate SameFlags(b: Browser, c: Browser) {
    && b.session.(items := c.session.items) == c.session
    && b.local.(items := c.local.items) == c.local
  }

  /** Every operation of the block is one its store accepts. */
  predicate Accepts(b: Browser, ops: seq<WriteOp>) {
    forall j :: 0 <= j < |ops| ==> !Rejects(At(b, ops[j].area), ops[j])
  }

  /** Whether a store rejects a call depends only on its flags. */
  lemma RejectsSameFlags(b: Browser, c: Browser, op: WriteOp)
    requires SameFlags(b, c)
    ensures Rejects(At(b, op.area), op) == Rejects(At(c, op.area), op)
  {
  }

  /** A block is accepted iff its first call is and, in the stores it leaves, the rest are. */
  lemma AcceptsCons(b: Browser, c: Browser, ops: seq<WriteOp>)
    requires ops != [] && SameFlags(c, b)
    ensures Accepts(b, ops) <==> !Rejects(At(b, ops[0].area), ops[0]) && Accepts(c, ops[1..])
  {
    forall j | 0 <= j < |ops| - 1
      ensures ops[1..][j] == ops[j + 1]
      ensures Rejects(At(c, ops[j + 1].area), ops[j + 1]) == Rejects(At(b, ops[j + 1].area), ops[j + 1])
    {
      RejectsSameFlags(c, b, ops[j + 1]);
    }
    if !Accepts(b, ops) && !Rejects(At(b, ops[0].area), ops[0]) {
      var i :| 0 <= i < |ops| && Rejects(At(b, ops[i].area), ops[i]);
      assert Rejects(At(c, ops[1..][i - 1].area), ops[1..][i - 1]);
    }
  }

  /** The block throws exactly when one of its operations is one its store rejects. */
  lemma {:induction false} RunWritesThrows(b: Browser, ops: seq<WriteOp>)
    ensures SameFlags(RunWrites(b, ops).browser, b)
    ensures RunWrites(b, ops).threw <==> !Accepts(b, ops)
    decreases |ops|
  {
    if ops != [] {
      var st := At(b, ops[0].area);
      var b1 := With(b, ops[0].area, Apply(st, ops[0]));
      assert SameFlags(b1, b);
      AcceptsCons(b, b1, ops);
      if !Rejects(st, ops[0]) {
        RunWritesThrows(b1, ops[1..]);
        assert RunWrites(b, ops) == RunWrites(b1, ops[1..]);
      }
    }
  }

  /** No two operations of the block name the same item. */
  predicate Distinct(ops: seq<WriteOp>) {
    forall i, j :: 0 <= i < j < |ops| ==> (ops[i].area, ops[i].key) != (ops[j].area, ops[j].key)
  }

  /**
   * A block of distinct operations that its stores all accept leaves each item as its
   * operation says and does not throw.
   */
  lemma {:induction false} RunWritesApplied(b: Browser, ops: seq<WriteOp>, i: nat)
    requires Accepts(b, ops)
    requires Distinct(ops) && i < |ops|
    ensures !RunWrites(b, ops).threw
    ensures Get(At(RunWrites(b, ops).browser, ops[i].area), ops[i].key) == Effect(ops[i])
    decreases |ops|
  {
    var op := ops[0];
    var b1 := With(b, op.area, Apply(At(b, op.area), op));
    var rest := ops[1..];
    assert SameFlags(b, b1);
    assert Accepts(b1, rest) by {
      forall j | 0 <= j < |rest| ensures !Rejects(At(b1, rest[j].area), rest[j]) {
        assert rest[j] == ops[j + 1];
      }
    }
    assert Distinct(rest) by {
      forall x, y | 0 <= x < y < |rest|
        ensures (rest[x].area, rest[x].key) != (rest[y].area, rest[y].key)
      {
        assert rest[x] == ops[x + 1] && rest[y] == ops[y + 1];
      }
    }
    if i == 0 {
      if |rest| == 0 {
        assert RunWrites(b, ops) == Written(b1, false);
      } else {
        RunWritesApplied(b1, rest, 0);
        forall j | 0 <= j < |rest| ensures (rest[j].area, rest[j].key) != (op.area, op.key) {
          assert rest[j] == ops[j + 1];
        }
        RunWritesUntouched(b1, rest, op.area, op.key);
      }
    } else {
      RunWritesApplied(b1, rest, i - 1);
      assert rest[i - 1] == ops[i];
    }
  }

  /** An item that no operation of the block names keeps its value, whether or not the block throws. */
  lemma {:induction false} RunWritesUntouched(b: Browser, ops: seq<WriteOp>, a: Area, k: string)
    requires forall j :: 0 <= j < |ops| ==> (ops[j].area, ops[j].key) != (a, k)
    ensures Get(At(RunWrites(b, ops).browser, a), k) == Get(At(b, a), k)
    decreases |ops|
  {
    if ops != [] && !Rejects(At(b, ops[0].area), ops[0]) {
      var b1 := With(b, ops[0].area, Apply(At(b, ops[0].area), ops[0]));
      assert (ops[0].area, ops[0].key) != (a, k);
      forall j | 0 <= j < |ops| - 1 ensures (ops[1..][j].area, ops[1..][j].key) != (a, k) {
        assert ops[1..][j] == ops[j + 1];
      }
      assert Get(At(b1, a), k) == Get(At(b, a), k);
      RunWritesUntouched(b1, ops[1..], a, k);
    }
  }

  /**
   * The block stops at its first throwing write: the stores are exactly as after the
   * operations before it, whatever follows.
   */
  lemma {:induction false} RunWritesStopsAtFailure(b: Browser, ops: seq<WriteOp>, i: nat)
    requires i < |ops|
    requires Accepts(b, ops[..i])
    requires Rejects(At(b, ops[i].area), ops[i])
    ensures RunWrites(b, ops) == Written(RunWrites(b, ops[..i]).browser, true)
    decreases i
  {
    if i > 0 {
      assert ops[..i][0] == ops[0];
      var b1 := With(b, ops[0].area, Apply(At(b, ops[0].area), ops[0]));
      assert SameFlags(b, b1);
      forall j | 0 <= j < i - 1 ensures !Rejects(At(b1, ops[1..][j].area), ops[1..][j]) {
        assert ops[..i][j + 1] == ops[j + 1];
        assert ops[1..][j] == ops[j + 1];
      }
      assert ops[1..][i - 1] == ops[i];
      RunWritesStopsAtFailure(b1, ops[1..], i - 1);
      assert ops[..i][1..] == ops[1..][..i - 1];
    }
  }
}
