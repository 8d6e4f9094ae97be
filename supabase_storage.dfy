/**
 * The auth storage adapter the browser client is created with: reads fall through
 * sessionStorage, localStorage and an in-memory map; writes go to the memory map first
 * and then, best effort, to both browser stores, swallowing every store failure.
 */
module SupabaseStorage {
  import opened Wrappers
  import opened WebStorage

  /** The adapter object handed to the auth client. */
  datatype Adapter = LayeredAdapter

  /** `getStorage`: no adapter when there is no `window` (server rendering). */
  function GetStorage(windowDefined: bool): (a: Option<Adapter>)
    ensures a.None? <==> !windowDefined
  {
    if windowDefined then Some(LayeredAdapter) else None
  }

  /**
   * `getItem`: the sessionStorage value when that read works and finds one, else the
   * localStorage value likewise, else the memory value, else null. A throwing store is
   * skipped.
   */
  function Lookup(b: Browser, memory: map<string, string>, k: string): (r: Option<string>)
    ensures !b.session.readThrows && k in b.session.items ==> r == Some(b.session.items[k])
    ensures (b.session.readThrows || k !in b.session.items) && !b.local.readThrows && k in b.local.items ==>
      r == Some(b.local.items[k])
    ensures (b.session.readThrows || k !in b.session.items) && (b.local.readThrows || k !in b.local.items) ==>
      r == Get(Store(memory, false, false, false), k)
  {
    if !b.session.readThrows && k in b.session.items then Some(b.session.items[k])
    else if !b.local.readThrows && k in b.local.items then Some(b.local.items[k])
    else if k in memory then Some(memory[k])
    else None
  }

  /**
   * One store's best-effort write inside its own try block: a store that rejects the call
   * is left alone, so under a full quota a removal still lands while a `setItem` does not.
   */
  function TryApply(st: Store, op: WriteOp): (r: Store)
    ensures Rejects(st, op) ==> r == st
    ensures !Rejects(st, op) ==> Get(r, op.key) == Effect(op)
    ensures forall k :: k != op.key ==> Get(r, k) == Get(st, k)
    ensures r.(items := st.items) == st
  {
    if Rejects(st, op) then st else Apply(st, op)
  }

  /** The call `setItem(k, v)` (`Some(v)`) or `removeItem(k)` (`None`) makes on sessionStorage. */
  function WriteFor(k: string, v: Option<string>): WriteOp {
    if v.Some? then SetOp(Session, k, v.value) else RemoveOp(Session, k)
  }

  /** Both stores after the two independent try blocks of `setItem` or `removeItem`. */
  function BestEffort(b: Browser, k: string, v: Option<string>): Browser {
    var op := WriteFor(k, v);
    Browser(TryApply(b.session, op), TryApply(b.local, op.(area := Local)))
  }

  /**
   * Whether a store cannot serve an old value for `k` once the call on `k` has been made:
   * it accepts the call, or its reads throw, or it holds nothing under `k`.
   */
  predicate NoStale(st: Store, k: string, v: Option<string>) {
    !Rejects(st, WriteFor(k, v)) || st.readThrows || k !in st.items
  }

  /**
   * Round trip of `setItem` then `getItem`: the value comes back whenever neither store can
   * serve an older value — in particular when both stores work, and when both are blocked
   * (the memory map answers).
   */
  lemma SetThenGet(b: Browser, memory: map<string, string>, k: string, v: string)
    requires NoStale(b.session, k, Some(v)) && NoStale(b.local, k, Some(v))
    ensures Lookup(BestEffort(b, k, Some(v)), memory[k := v], k) == Some(v)
  {
    var after := BestEffort(b, k, Some(v));
    assert !b.session.setThrows ==> Get(after.session, k) == Some(v);
    assert !b.local.setThrows ==> Get(after.local, k) == Some(v);
  }

  /**
   * After `removeItem(k)` with stores that cannot serve an old value, `getItem(k)` is null;
   * stores over their quota accept the removal, so this covers them.
   */
  lemma RemoveThenGet(b: Browser, memory: map<string, string>, k: string)
    requires NoStale(b.session, k, None) && NoStale(b.local, k, None)
    ensures Lookup(BestEffort(b, k, None), memory - {k}, k) == None
  {
    var after := BestEffort(b, k, None);
    assert !b.session.removeThrows ==> Get(after.session, k) == None;
    assert !b.local.removeThrows ==> Get(after.local, k) == None;
  }

  /** Under a full quota in both stores, `removeItem(k)` clears `k` everywhere. */
  lemma {:induction false} RemoveUnderFullQuota(s: map<string, string>, l: map<string, string>,
                                                memory: map<string, string>, k: string)
    ensures var after := BestEffort(Browser(FullQuota(s), FullQuota(l)), k, None);
      && k !in after.session.items && k !in after.local.items
      && Lookup(after, memory - {k}, k) == None
  {
    RemoveThenGet(Browser(FullQuota(s), FullQuota(l)), memory, k);
  }

  /** `setItem` and `removeItem` on `k` leave every other key as it was, in all three stores. */
  lemma OtherKeysUnchanged(b: Browser, memory: map<string, string>, k: string, v: Option<string>, k2: string)
    requires k2 != k
    ensures var m1 := if v.Some? then memory[k := v.value] else memory - {k};
      && Get(BestEffort(b, k, v).session, k2) == Get(b.session, k2)
      && Get(BestEffort(b, k, v).local, k2) == Get(b.local, k2)
      && Get(Store(m1, false, false, false), k2) == Get(Store(memory, false, false, false), k2)
      && Lookup(BestEffort(b, k, v), m1, k2) == Lookup(b, memory, k2)
  {
    var m1 := if v.Some? then memory[k := v.value] else memory - {k};
    var after := BestEffort(b, k, v);
    assert Get(after.session, k2) == Get(b.session, k2);
    assert Get(after.local, k2) == Get(b.local, k2);
    assert k2 in after.session.items <==> k2 in b.session.items;
    assert k2 in after.local.items <==> k2 in b.local.items;
  }

  /**
   * The round trip fails when a store over its quota still serves reads: the store's old
   * value shadows the newer one held in memory.
   */
  lemma StaleReadWhenWritesFail()
    ensures var b := Browser(FullQuota(map["k" := "old"]), Store(map[], false, false, false));
      Lookup(BestEffort(b, "k", Some("new")), map["k" := "new"], "k") == Some("old")
  {
  }

  /**
   * The adapter's state: both browser stores and the module-level `memoryStore`. Each object
   * holds its own copy of both; the sharing between clients is not modelled.
   */
  class LayeredStorage {
    var browser: Browser
    var memory: map<string, string>

    /** The first adapter of the page: the memory map starts empty. */
    constructor(b: Browser)
      ensures browser == b && memory == map[]
    {
      browser := b;
      memory := map[];
    }

    /** `getItem(key)`: the three reads in order, each in its own try block. */
    method GetItem(k: string) returns (r: Option<string>)
      ensures r == Lookup(browser, memory, k)
    {
      if !browser.session.readThrows {
        var s := Get(browser.session, k);
        if s.Some? {
          return s;
        }
      }
      if !browser.local.readThrows {
        var l := Get(browser.local, k);
        if l.Some? {
          return l;
        }
      }
      r := if k in memory then Some(memory[k]) else None;
    }

    /** `setItem(key, value)`: memory first, then each browser store best effort; never throws. */
    method SetItem(k: string, v: string)
      modifies this
      ensures memory == old(memory)[k := v]
      ensures browser == BestEffort(old(browser), k, Some(v))
    {
      memory := memory[k := v];
      browser := browser.(session := TryApply(browser.session, SetOp(Session, k, v)));
      browser := browser.(local := TryApply(browser.local, SetOp(Local, k, v)));
    }

    /** `removeItem(key)`: memory first, then each browser store best effort; never throws. */
    method RemoveItem(k: string)
      modifies this
      ensures memory == old(memory) - {k}
      ensures browser == BestEffort(old(browser), k, None)
    {
      memory := memory - {k};
      browser := browser.(session := TryApply(browser.session, RemoveOp(Session, k)));
      browser := browser.(local := TryApply(browser.local, RemoveOp(Local, k)));
    }
  }
}
