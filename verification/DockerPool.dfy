/**
 The device's container pool: port allocation, resizing, health checks and restarts over the
 agents table.
 */
module DockerPool {
  import opened Prelude

  /** Ids drawn on the device are new; the gateway supplies others. */
  datatype AgentId = Local(n: nat) | Given(n: nat)

  datatype Status = Creating | Idle | Busy | Unhealthy | Failed

  /** restarted: how often the health check has restarted this row's container. */
  datatype Row = Row(id: AgentId, status: Status, port: int, restarts: nat, restarted: nat)

  /** rows in the order of the listing (by creation time); ports is the manager's set of allocated ports. */
  datatype Pool = Pool(rows: seq<Row>, ports: set<int>, nextLocal: nat)

  datatype Config = Config(lo: int, hi: int, maxRestarts: nat)

  const EMPTY := Pool([], {}, 0)

  // ----- rows

  function Having(rows: seq<Row>, status: Status): seq<Row> {
    if rows == [] then []
    else Having(rows[..|rows| - 1], status) + if rows[|rows| - 1].status == status then [rows[|rows| - 1]] else []
  }

  function Without(rows: seq<Row>, id: AgentId): seq<Row> {
    if rows == [] then []
    else Without(rows[..|rows| - 1], id) + if rows[|rows| - 1].id == id then [] else [rows[|rows| - 1]]
  }

  function WithoutAll(rows: seq<Row>, gone: seq<Row>): seq<Row> {
    if gone == [] then rows else Without(WithoutAll(rows, gone[..|gone| - 1]), gone[|gone| - 1].id)
  }

  function PortsOf(rows: seq<Row>): set<int> {
    set r | r in rows :: r.port
  }

  predicate HasId(rows: seq<Row>, id: AgentId) {
    exists r | r in rows :: r.id == id
  }

  // ----- ports

  function FirstFree(ports: set<int>, lo: int, hi: int): (p: Option<int>)
    ensures p.Some? ==> lo <= p.value <= hi && p.value !in ports && forall q | lo <= q < p.value :: q in ports
    ensures p.None? ==> forall q | lo <= q <= hi :: q in ports
    decreases hi - lo
  {
    if lo > hi then None else if lo !in ports then Some(lo) else FirstFree(ports, lo + 1, hi)
  }

  // ----- the operations on values

  function Surplus(rows: seq<Row>, desired: int): seq<Row> {
    var idle, busy := Having(rows, Idle), Having(rows, Busy);
    if |idle| + |busy| > desired then
      var keep := Max(0, desired - |busy|);
      if keep <= |idle| then idle[keep..] else []
    else []
  }

  function Shrunk(s: Pool, desired: int): Pool {
    var gone := Surplus(s.rows, desired);
    s.(rows := WithoutAll(s.rows, gone), ports := s.ports - PortsOf(gone))
  }

  function Created(s: Pool, id: AgentId, port: int): Pool {
    s.(rows := s.rows + [Row(id, Idle, port, 0, 0)], ports := s.ports + {port})
  }

  /** n new agents; false when the ports run out on the way. */
  function Grown(s: Pool, cfg: Config, n: nat): (Pool, bool)
    decreases n
  {
    if n == 0 then (s, true)
    else
      var p := FirstFree(s.ports, cfg.lo, cfg.hi);
      if p.None? then (s.(nextLocal := s.nextLocal + 1), false)
      else Grown(Created(s.(nextLocal := s.nextLocal + 1), Local(s.nextLocal), p.value), cfg, n - 1)
  }

  function Live(rows: seq<Row>): nat {
    |Having(rows, Idle)| + |Having(rows, Busy)|
  }

  function Ensured(s: Pool, cfg: Config, desired: int): (Pool, bool) {
    var total := Live(s.rows);
    if total > desired then (Shrunk(s, desired), true) else Grown(s, cfg, desired - total)
  }

  function CreatedWithId(s: Pool, cfg: Config, id: AgentId): (Pool, bool) {
    if HasId(s.rows, id) then (s, true)
    else
      var p := FirstFree(s.ports, cfg.lo, cfg.hi);
      if p.None? then (s, false) else (Created(s, id, p.value), true)
  }

  function Checked(r: Row, healthy: bool, maxRestarts: nat): Row {
    if r.status == Creating then r
    else if !healthy then
      if r.restarts + 1 > maxRestarts then r.(restarts := r.restarts + 1, status := Failed)
      else r.(restarts := r.restarts + 1, status := Unhealthy, restarted := r.restarted + 1)
    else if r.status == Unhealthy then r.(status := Idle) else r
  }

  function Updated(rows: seq<Row>, id: AgentId, f: Row -> Row): seq<Row> {
    seq(|rows|, i requires 0 <= i < |rows| => if rows[i].id == id then f(rows[i]) else rows[i])
  }

  // ----- what the rows keep

  ghost predicate Distinct(rows: seq<Row>) {
    forall i, k | 0 <= i < k < |rows| :: rows[i].id != rows[k].id && rows[i].port != rows[k].port
  }

  ghost predicate Good(s: Pool, cfg: Config) {
    && Distinct(s.rows)
    && (forall r | r in s.rows :: cfg.lo <= r.port <= cfg.hi && r.port in s.ports)
    && (forall r | r in s.rows && r.id.Local? :: r.id.n < s.nextLocal)
    && (forall r | r in s.rows :: r.restarted == if r.restarts <= cfg.maxRestarts then r.restarts else cfg.maxRestarts)
  }

  lemma {:induction false} InWithout(rows: seq<Row>, id: AgentId)
    requires Distinct(rows)
    ensures Distinct(Without(rows, id))
    ensures forall r :: r in Without(rows, id) <==> r in rows && r.id != id
  {
    if rows != [] {
      var init, last := rows[..|rows| - 1], rows[|rows| - 1];
      InWithout(init, id);
      assert rows == init + [last];
      var rest := Without(init, id);
      forall i | 0 <= i < |rest| ensures rest[i].id != last.id && rest[i].port != last.port {
        assert rest[i] in init;
      }
    }
  }

  lemma {:induction false} InHaving(rows: seq<Row>, status: Status)
    requires Distinct(rows)
    ensures Distinct(Having(rows, status))
    ensures forall r :: r in Having(rows, status) <==> r in rows && r.status == status
  {
    if rows != [] {
      var init, last := rows[..|rows| - 1], rows[|rows| - 1];
      InHaving(init, status);
      assert rows == init + [last];
      var rest := Having(init, status);
      forall i | 0 <= i < |rest| ensures rest[i].id != last.id && rest[i].port != last.port {
        assert rest[i] in init;
      }
    }
  }

  lemma {:induction false} HavingWithout(rows: seq<Row>, id: AgentId, status: Status)
    ensures Having(Without(rows, id), status) == Without(Having(rows, status), id)
  {
    if rows != [] {
      var init, last := rows[..|rows| - 1], rows[|rows| - 1];
      HavingWithout(init, id, status);
      HavingSnoc(Without(init, id), last, status);
      WithoutSnoc(Having(init, status), last, id);
      assert Having(init, status) + [] == Having(init, status) && Without(init, id) + [] == Without(init, id);
    }
  }

  lemma HavingSnoc(rows: seq<Row>, r: Row, status: Status)
    ensures Having(rows + [r], status) == Having(rows, status) + if r.status == status then [r] else []
  {
    assert (rows + [r])[..|rows|] == rows;
  }

  lemma WithoutSnoc(rows: seq<Row>, r: Row, id: AgentId)
    ensures Without(rows + [r], id) == Without(rows, id) + if r.id == id then [] else [r]
  {
    assert (rows + [r])[..|rows|] == rows;
  }

  lemma {:induction false} WithoutAbsent(rows: seq<Row>, id: AgentId)
    requires !HasId(rows, id)
    ensures Without(rows, id) == rows
  {
    if rows != [] {
      var init, last := rows[..|rows| - 1], rows[|rows| - 1];
      assert rows == init + [last];
      assert last in rows && forall r | r in init :: r in rows;
      WithoutAbsent(init, id);
    }
  }

  lemma {:induction false} HavingWithoutAll(rows: seq<Row>, gone: seq<Row>, status: Status)
    ensures Having(WithoutAll(rows, gone), status) == WithoutAll(Having(rows, status), gone)
  {
    if gone != [] {
      HavingWithoutAll(rows, gone[..|gone| - 1], status);
      HavingWithout(WithoutAll(rows, gone[..|gone| - 1]), gone[|gone| - 1].id, status);
    }
  }

  lemma {:induction false} InWithoutAll(rows: seq<Row>, gone: seq<Row>)
    requires Distinct(rows)
    ensures Distinct(WithoutAll(rows, gone))
    ensures forall r :: r in WithoutAll(rows, gone) <==> r in rows && !HasId(gone, r.id)
  {
    if gone != [] {
      var init, last := gone[..|gone| - 1], gone[|gone| - 1];
      InWithoutAll(rows, init);
      InWithout(WithoutAll(rows, init), last.id);
      assert gone == init + [last];
      forall r: Row ensures HasId(gone, r.id) <==> HasId(init, r.id) || r.id == last.id {
        assert last in gone;
      }
    }
  }

  /** Deleting the idle rows from `keep` on leaves exactly the idle rows before it, the oldest ones. */
  lemma {:induction false} DropTail(rows: seq<Row>, keep: nat, upto: nat)
    requires Distinct(rows) && keep <= upto <= |rows|
    ensures WithoutAll(rows, rows[keep..upto]) == rows[..keep] + rows[upto..]
    decreases upto
  {
    if upto > keep {
      DropTail(rows, keep, upto - 1);
      var gone := rows[keep..upto];
      assert gone[..|gone| - 1] == rows[keep..upto - 1] && gone[|gone| - 1] == rows[upto - 1];
      var left := rows[..keep] + rows[upto - 1..];
      assert left == (rows[..keep] + [rows[upto - 1]]) + rows[upto..];
      WithoutMiddle(rows[..keep], rows[upto - 1], rows[upto..]);
    } else {
      assert rows[keep..upto] == [] && rows[..keep] + rows[upto..] == rows;
    }
  }

  lemma {:induction false} WithoutMiddle(a: seq<Row>, r: Row, b: seq<Row>)
    requires Distinct((a + [r]) + b)
    ensures Without((a + [r]) + b, r.id) == a + b
    decreases |b|
  {
    var all := (a + [r]) + b;
    if b == [] {
      assert all == a + [r];
      assert forall i | 0 <= i < |a| :: all[i] == a[i] && all[|a|] == r;
      WithoutAbsent(a, r.id);
      WithoutSnoc(a, r, r.id);
      assert a + b == a;
    } else {
      var b', last := b[..|b| - 1], b[|b| - 1];
      assert all == ((a + [r]) + b') + [last];
      assert forall i | 0 <= i < |all| - 1 :: all[i] == ((a + [r]) + b')[i];
      WithoutMiddle(a, r, b');
      assert all[|a|] == r && all[|all| - 1] == last;
      WithoutSnoc((a + [r]) + b', last, r.id);
      assert a + b == (a + b') + [last];
    }
  }

  lemma WithoutOthers(rows: seq<Row>, gone: seq<Row>)
    requires forall g | g in gone :: !HasId(rows, g.id)
    ensures WithoutAll(rows, gone) == rows
    decreases |gone|
  {
    if gone != [] {
      var init, last := gone[..|gone| - 1], gone[|gone| - 1];
      assert gone == init + [last];
      assert last in gone && forall g | g in init :: g in gone;
      WithoutOthers(rows, init);
      WithoutAbsent(rows, last.id);
    }
  }

  // ----- resizing

  lemma SurplusIsIdle(s: Pool, cfg: Config, desired: int)
    requires Good(s, cfg) && Live(s.rows) > desired
    ensures var keep := Max(0, desired - |Having(s.rows, Busy)|);
            keep <= |Having(s.rows, Idle)| && Surplus(s.rows, desired) == Having(s.rows, Idle)[keep..]
    ensures forall g | g in Surplus(s.rows, desired) :: g in s.rows && g.status == Idle
  {
    InHaving(s.rows, Idle);
    forall g | g in Surplus(s.rows, desired) ensures g in Having(s.rows, Idle) {
    }
  }

  lemma ShrinkIdle(s: Pool, cfg: Config, desired: int)
    requires Good(s, cfg) && Live(s.rows) > desired
    ensures var keep := Max(0, desired - |Having(s.rows, Busy)|);
            keep <= |Having(s.rows, Idle)| && Having(Shrunk(s, desired).rows, Idle) == Having(s.rows, Idle)[..keep]
  {
    var idle, gone := Having(s.rows, Idle), Surplus(s.rows, desired);
    var keep := Max(0, desired - |Having(s.rows, Busy)|);
    SurplusIsIdle(s, cfg, desired);
    InHaving(s.rows, Idle);
    HavingWithoutAll(s.rows, gone, Idle);
    DropTail(idle, keep, |idle|);
    assert idle[keep..|idle|] == gone && idle[..keep] + idle[|idle|..] == idle[..keep];
  }

  lemma ShrinkOthers(s: Pool, cfg: Config, desired: int, status: Status)
    requires Good(s, cfg) && Live(s.rows) > desired && status != Idle
    ensures Having(Shrunk(s, desired).rows, status) == Having(s.rows, status)
  {
    var gone := Surplus(s.rows, desired);
    SurplusIsIdle(s, cfg, desired);
    HavingWithoutAll(s.rows, gone, status);
    forall g | g in gone ensures !HasId(Having(s.rows, status), g.id) {
      OneRowPerId(s.rows, g, status);
    }
    WithoutOthers(Having(s.rows, status), gone);
  }

  lemma ShrinkGood(s: Pool, cfg: Config, desired: int)
    requires Good(s, cfg) && Live(s.rows) > desired
    ensures Good(Shrunk(s, desired), cfg)
  {
    var gone := Surplus(s.rows, desired);
    SurplusIsIdle(s, cfg, desired);
    InWithoutAll(s.rows, gone);
    forall r | r in Shrunk(s, desired).rows ensures r in s.rows && r.port !in PortsOf(gone) {
      if r.port in PortsOf(gone) {
        var g :| g in gone && g.port == r.port;
        assert HasId(gone, g.id);
        SameRow(s.rows, r, g);
        assert false;
      }
    }
  }

  lemma ShrunkSize(s: Pool, cfg: Config, desired: int)
    requires Good(s, cfg) && Live(s.rows) > desired
    ensures var rows := Shrunk(s, desired).rows;
            && Having(rows, Busy) == Having(s.rows, Busy) && Having(rows, Idle) <= Having(s.rows, Idle)
            && Live(rows) == Max(desired, |Having(s.rows, Busy)|)
  {
    ShrinkIdle(s, cfg, desired);
    ShrinkOthers(s, cfg, desired, Busy);
  }

  lemma SameRow(rows: seq<Row>, r: Row, g: Row)
    requires Distinct(rows) && r in rows && g in rows && (r.port == g.port || r.id == g.id)
    ensures r == g
  {
    var i, k :| 0 <= i < |rows| && rows[i] == r && 0 <= k < |rows| && rows[k] == g;
  }

  lemma OneRowPerId(rows: seq<Row>, g: Row, status: Status)
    requires Distinct(rows) && g in rows && g.status != status
    ensures !HasId(Having(rows, status), g.id)
  {
    InHaving(rows, status);
    if r :| r in Having(rows, status) && r.id == g.id {
      SameRow(rows, r, g);
    }
  }

  lemma CreateKeeps(s: Pool, cfg: Config, id: AgentId, port: int)
    requires Good(s, cfg) && cfg.lo <= port <= cfg.hi && port !in s.ports
    requires !HasId(s.rows, id) && (id.Local? ==> id.n < s.nextLocal)
    ensures Good(Created(s, id, port), cfg) && Live(Created(s, id, port).rows) == Live(s.rows) + 1
    ensures Having(Created(s, id, port).rows, Busy) == Having(s.rows, Busy)
  {
    var r := Row(id, Idle, port, 0, 0);
    HavingSnoc(s.rows, r, Idle);
    HavingSnoc(s.rows, r, Busy);
    forall i | 0 <= i < |s.rows| ensures s.rows[i].id != id && s.rows[i].port != port {
      assert s.rows[i] in s.rows;
    }
  }

  lemma {:induction false} GrowKeeps(s: Pool, cfg: Config, n: nat)
    requires Good(s, cfg)
    ensures var r := Grown(s, cfg, n);
            && Good(r.0, cfg) && s.rows <= r.0.rows
            && Having(r.0.rows, Busy) == Having(s.rows, Busy)
            && (r.1 ==> Live(r.0.rows) == Live(s.rows) + n)
            && (!r.1 ==> forall p | cfg.lo <= p <= cfg.hi :: p in r.0.ports)
    decreases n
  {
    if n > 0 {
      var p := FirstFree(s.ports, cfg.lo, cfg.hi);
      if p.Some? {
        var next := s.(nextLocal := s.nextLocal + 1);
        CreateKeeps(next, cfg, Local(s.nextLocal), p.value);
        GrowKeeps(Created(next, Local(s.nextLocal), p.value), cfg, n - 1);
      }
    }
  }

  /**
   Resizing to `desired`: unless the ports run out, idle plus busy becomes desired, or the number
   of busy agents if that is more; agents that are not idle stay, and the idle ones kept are the oldest.
   It fails only when every port of the range is allocated.
   */
  lemma EnsuredSize(s: Pool, cfg: Config, desired: int)
    requires Good(s, cfg)
    ensures var r := Ensured(s, cfg, desired);
            && Good(r.0, cfg)
            && Having(r.0.rows, Busy) == Having(s.rows, Busy)
            && (r.1 ==> Live(r.0.rows) == Max(desired, |Having(s.rows, Busy)|))
            && (Having(r.0.rows, Idle) <= Having(s.rows, Idle) || s.rows <= r.0.rows)
            && (!r.1 ==> forall p | cfg.lo <= p <= cfg.hi :: p in r.0.ports)
  {
    if Live(s.rows) > desired {
      ShrunkSize(s, cfg, desired);
      ShrinkGood(s, cfg, desired);
    } else {
      GrowKeeps(s, cfg, desired - Live(s.rows));
    }
  }

  // ----- whole runs

  datatype Event =
    | EnsurePool(desired: int)
    | CreateAgent(id: AgentId)
    | Allocate(id: AgentId)
    | Release(id: AgentId)
    | HealthCheck(id: AgentId, healthy: bool)
    | Drain(id: AgentId)            // the row goes, its port stays allocated

  function Step(s: Pool, cfg: Config, e: Event): Pool {
    match e
    case EnsurePool(desired) => Ensured(s, cfg, desired).0
    case CreateAgent(id) => if id.Given? then CreatedWithId(s, cfg, id).0 else s
    case Allocate(id) => s.(rows := Updated(s.rows, id, (r: Row) => r.(status := Busy)))
    case Release(id) => s.(rows := Updated(s.rows, id, (r: Row) => r.(status := Idle)))
    case HealthCheck(id, healthy) => s.(rows := Updated(s.rows, id, (r: Row) => Checked(r, healthy, cfg.maxRestarts)))
    case Drain(id) => s.(rows := Without(s.rows, id))
  }

  function Run(s: Pool, cfg: Config, es: seq<Event>): Pool {
    if es == [] then s else Step(Run(s, cfg, es[..|es| - 1]), cfg, es[|es| - 1])
  }

  lemma UpdateKeeps(s: Pool, cfg: Config, id: AgentId, f: Row -> Row)
    requires Good(s, cfg)
    requires forall r: Row :: f(r).id == r.id && f(r).port == r.port
    requires forall r: Row | r.restarted == (if r.restarts <= cfg.maxRestarts then r.restarts else cfg.maxRestarts) ::
               f(r).restarted == if f(r).restarts <= cfg.maxRestarts then f(r).restarts else cfg.maxRestarts
    ensures Good(s.(rows := Updated(s.rows, id, f)), cfg)
  {
    var rows := Updated(s.rows, id, f);
    forall i | 0 <= i < |rows| ensures rows[i].id == s.rows[i].id && rows[i].port == s.rows[i].port
      && s.rows[i] in s.rows {
    }
  }

  lemma StepKeeps(s: Pool, cfg: Config, e: Event)
    requires Good(s, cfg)
    ensures Good(Step(s, cfg, e), cfg)
  {
    match e
    case EnsurePool(desired) => EnsuredSize(s, cfg, desired);
    case CreateAgent(id) =>
      var p := FirstFree(s.ports, cfg.lo, cfg.hi);
      if id.Given? && !HasId(s.rows, id) && p.Some? {
        CreateKeeps(s, cfg, id, p.value);
      }
    case Allocate(id) => UpdateKeeps(s, cfg, id, (r: Row) => r.(status := Busy));
    case Release(id) => UpdateKeeps(s, cfg, id, (r: Row) => r.(status := Idle));
    case HealthCheck(id, healthy) => UpdateKeeps(s, cfg, id, (r: Row) => Checked(r, healthy, cfg.maxRestarts));
    case Drain(id) => InWithout(s.rows, id);
  }

  /**
   From an empty table, in every reachable state: ports are pairwise distinct, in the range and
   allocated, and each row's container has been restarted once per failed check, up to the limit.
   */
  lemma {:induction false} PoolStaysGood(cfg: Config, es: seq<Event>)
    ensures Good(Run(EMPTY, cfg, es), cfg)
    ensures forall r | r in Run(EMPTY, cfg, es).rows :: r.restarted <= cfg.maxRestarts
  {
    if es != [] {
      PoolStaysGood(cfg, es[..|es| - 1]);
      StepKeeps(Run(EMPTY, cfg, es[..|es| - 1]), cfg, es[|es| - 1]);
    }
  }

  /**
   The table outlives the process, the set of ports does not: after a restart the next agent gets
   a port in use exactly when some row has the first one.
   */
  lemma RestartReusesPortIff(s: Pool, cfg: Config, id: AgentId)
    requires Good(s, cfg) && cfg.lo <= cfg.hi && !HasId(s.rows, id)
    ensures var r := CreatedWithId(s.(ports := {}), cfg, id).0;
            Distinct(r.rows) <==> forall row | row in s.rows :: row.port != cfg.lo
  {
    var r := CreatedWithId(s.(ports := {}), cfg, id).0;
    assert r.rows == s.rows + [Row(id, Idle, cfg.lo, 0, 0)];
    if row :| row in s.rows && row.port == cfg.lo {
      var i :| 0 <= i < |s.rows| && s.rows[i] == row;
      assert r.rows[i] == row && r.rows[|s.rows|].port == cfg.lo;
    } else {
      forall i | 0 <= i < |s.rows| ensures s.rows[i].id != id && s.rows[i].port != cfg.lo {
        assert s.rows[i] in s.rows;
      }
    }
  }

  // ----- the manager as it updates its table and its port set

  class DockerManager {
    const cfg: Config
    var rows: seq<Row>
    var ports: set<int>
    var nextLocal: nat

    constructor (cfg: Config)
      ensures this.cfg == cfg && Contents() == EMPTY
    {
      this.cfg, rows, ports, nextLocal := cfg, [], {}, 0;
    }

    function Contents(): Pool
      reads this
    {
      Pool(rows, ports, nextLocal)
    }

    method AllocatePort() returns (p: Option<int>)
      modifies this`ports
      ensures p == FirstFree(old(ports), cfg.lo, cfg.hi)
      ensures ports == if p.Some? then old(ports) + {p.value} else old(ports)
    {
      var q := cfg.lo;
      while q <= cfg.hi
        invariant ports == old(ports)
        invariant FirstFree(ports, q, cfg.hi) == FirstFree(ports, cfg.lo, cfg.hi)
        decreases cfg.hi - q
      {
        if q !in ports {
          ports := ports + {q};
          return Some(q);
        }
        q := q + 1;
      }
      return None;
    }

    /** Insert the row and start its container; false when there is no port. */
    method CreateRow(id: AgentId) returns (ok: bool)
      modifies this`rows, this`ports
      ensures var p := FirstFree(old(ports), cfg.lo, cfg.hi);
              && ok == p.Some?
              && Contents() == if ok then Created(old(Contents()), id, p.value) else old(Contents())
    {
      var p := AllocatePort();
      if p.None? {
        return false;
      }
      rows := rows + [Row(id, Idle, p.value, 0, 0)];
      return true;
    }

    method EnsurePool(desired: int) returns (ok: bool)
      modifies this
      ensures (Contents(), ok) == Ensured(old(Contents()), cfg, desired)
    {
      var total: int := |Having(rows, Idle)| + |Having(rows, Busy)|;
      if total > desired {
        RemoveSurplus(desired);
        return true;
      }
      ghost var start := Contents();
      var n := desired - total;
      while n > 0
        invariant 0 <= n && Grown(Contents(), cfg, n) == Grown(start, cfg, desired - total)
      {
        var id := Local(nextLocal);
        nextLocal := nextLocal + 1;
        var created := CreateRow(id);
        if !created {
          return false;
        }
        n := n - 1;
      }
      return true;
    }

    method RemoveSurplus(desired: int)
      modifies this`rows, this`ports
      ensures Contents() == Shrunk(old(Contents()), desired)
    {
      var surplus := Surplus(rows, desired);
      for i := 0 to |surplus|
        invariant rows == WithoutAll(old(rows), surplus[..i])
        invariant ports == old(ports) - PortsOf(surplus[..i])
      {
        assert surplus[..i + 1][..i] == surplus[..i] && surplus[..i + 1] == surplus[..i] + [surplus[i]];
        rows := Without(rows, surplus[i].id);
        ports := ports - {surplus[i].port};
      }
      assert surplus[..|surplus|] == surplus;
    }

    method CreateAgentWithId(id: AgentId) returns (ok: bool)
      modifies this`rows, this`ports
      ensures (Contents(), ok) == CreatedWithId(old(Contents()), cfg, id)
    {
      if HasId(rows, id) {
        return true;
      }
      ok := CreateRow(id);
    }

    /** The row is read once; what is written depends on it and on the probe. */
    method CheckHealth(id: AgentId, healthy: bool) returns (restart: bool)
      requires Distinct(rows)
      modifies this`rows
      ensures Contents() == Step(old(Contents()), cfg, HealthCheck(id, healthy))
      ensures restart <==> exists r | r in old(rows) ::
                r.id == id && !healthy && r.status != Creating && r.restarts < cfg.maxRestarts
    {
      if !HasId(rows, id) {
        assert forall i | 0 <= i < |rows| :: rows[i] in rows && rows[i].id != id;
        assert Updated(rows, id, (r: Row) => Checked(r, healthy, cfg.maxRestarts)) == rows;
        return false;
      }
      var i := 0;
      while rows[i].id != id
        invariant 0 <= i < |rows| && rows == old(rows)
        invariant exists k :: i <= k < |rows| && rows[k].id == id
        decreases |rows| - i
      {
        i := i + 1;
      }
      var row := rows[i];
      restart := false;
      if row.status == Creating {
        return;
      }
      if !healthy {
        var restarts := row.restarts + 1;
        rows := rows[i := row.(restarts := restarts, status := Unhealthy)];
        if restarts > cfg.maxRestarts {
          rows := rows[i := rows[i].(status := Failed)];
        } else {
          restart := true;
          rows := rows[i := rows[i].(restarted := row.restarted + 1)];
        }
      } else if row.status == Unhealthy {
        rows := rows[i := row.(status := Idle)];
      }
      assert rows == Updated(old(rows), id, (r: Row) => Checked(r, healthy, cfg.maxRestarts));
    }
  }
}
