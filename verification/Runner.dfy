/** The sink itself: the loops of `internal/pipeline`, statement by statement, over stores
    the daemon writes and faults interrupt. Every method keeps a log of what happened; the
    log is always a legal run of the transition system, so what is proved of runs holds of
    the code. */
module Runner {
  import opened Prelude
  import opened Ordered
  import opened Chunking
  import opened Replication
  import opened Quiet
  import opened Convergence
  import opened Journal

  /** How a statement ends. */
  datatype Outcome = Done | Failed | Cancelled

  datatype TableResult = TableResult(rows: nat, quarantined: nat, skipped: Option<string>)

  // ---------- the daemon's script ----------

  ghost predicate PermittedOps(t: Table, d: State, ops: seq<WriteOp>)
    decreases |ops|
  {
    ops == [] || (Permitted(t, d, ops[0]) && PermittedOps(t, ApplyWrite(t, d, ops[0]), ops[1..]))
  }

  ghost function AfterOps(t: Table, d: State, ops: seq<WriteOp>): State
    decreases |ops|
  {
    if ops == [] then d else AfterOps(t, ApplyWrite(t, d, ops[0]), ops[1..])
  }

  ghost predicate PermittedScript(t: Table, d: State, script: seq<seq<WriteOp>>)
    decreases |script|
  {
    script == []
    || (PermittedOps(t, d, script[0]) && PermittedScript(t, AfterOps(t, d, script[0]), script[1..]))
  }

  // ---------- set queries ----------

  lemma Shrinks(a: set<int>, b: set<int>, x: int)
    requires a <= b && x in b && x !in a
    ensures |a| < |b|
  {
    assert a <= b - {x};
    CardinalityBelow(a, b - {x});
  }

  method PickOne<T>(s: set<T>) returns (x: T)
    requires s != {}
    ensures x in s
  {
    x :| x in s;
  }

  method Least(s: set<int>) returns (m: int)
    requires s != {}
    ensures m == Min(s)
  {
    m := PickOne(s);
    var rest := s - {m};
    while rest != {}
      invariant m in s && rest <= s
      invariant forall x :: x in s && x !in rest ==> m <= x
      decreases |rest|
    {
      var x := PickOne(rest);
      rest := rest - {x};
      if x < m { m := x; }
    }
  }

  method Greatest(s: set<int>) returns (m: Option<int>)
    ensures m == Max(s)
  {
    m := None;
    var rest := s;
    while rest != {}
      invariant rest <= s
      invariant m.None? ==> rest == s
      invariant m.Some? ==> m.value in s && forall x :: x in s && x !in rest ==> x <= m.value
      decreases |rest|
    {
      var x := PickOne(rest);
      rest := rest - {x};
      if m.None? || m.value < x { m := Some(x); }
    }
  }

  /** ORDER BY rowid LIMIT n. */
  method First(s: set<int>, limit: nat) returns (ids: seq<int>)
    ensures ids == FirstOf(s, limit)
  {
    ids := [];
    var rest := s;
    while |ids| < limit && rest != {}
      invariant |ids| <= limit && Sorted(s) == ids + Sorted(rest)
      decreases |rest|
    {
      var m := Least(rest);
      ids := ids + [m];
      rest := rest - {m};
    }
    assert |ids| < limit ==> Sorted(rest) == [];
  }

  // ---------- faults ----------

  predicate Faultless(os: seq<Outcome>) {
    forall i :: 0 <= i < |os| ==> os[i].Done?
  }

  /** How the next statement ends: as the script says, and well once it has run out. */
  function NextOutcome(os: seq<Outcome>): Outcome {
    if os == [] then Done else os[0]
  }

  function LaterOutcomes(os: seq<Outcome>): (later: seq<Outcome>)
    ensures Faultless(os) ==> NextOutcome(os).Done? && Faultless(later)
  {
    if os == [] then [] else os[1..]
  }

  lemma NothingUpserted(target: map<Key, Row>, rows: seq<Entry>)
    ensures Upserted(target, rows[..0]) == target
  {
  }

  /** Of the first k rows those the target takes have been upserted, and the others filed. */
  predicate JudgedTo(refuses: Row -> bool, target: map<Key, Row>, quarantine: seq<Row>, rows: seq<Entry>, k: nat,
                     target': map<Key, Row>, quarantine': seq<Row>)
    requires k <= |rows|
  {
    && target' == Upserted(target, Kept(refuses, rows[..k]))
    && quarantine' == quarantine + Refused(refuses, rows[..k])
  }

  lemma JudgedToNone(refuses: Row -> bool, target: map<Key, Row>, quarantine: seq<Row>, rows: seq<Entry>)
    ensures JudgedTo(refuses, target, quarantine, rows, 0, target, quarantine)
  {
  }

  lemma JudgedToAll(refuses: Row -> bool, target: map<Key, Row>, quarantine: seq<Row>, rows: seq<Entry>)
    requires NoneRefused(refuses, rows)
    ensures JudgedTo(refuses, target, quarantine, rows, |rows|, Upserted(target, rows), quarantine)
  {
    AllKept(refuses, rows);
    assert rows[..|rows|] == rows;
  }

  lemma JudgedToNext(refuses: Row -> bool, target: map<Key, Row>, quarantine: seq<Row>, rows: seq<Entry>, k: nat,
                     target': map<Key, Row>, quarantine': seq<Row>)
    requires k < |rows| && JudgedTo(refuses, target, quarantine, rows, k, target', quarantine')
    ensures var r := rows[k].row;
            if refuses(r) then JudgedTo(refuses, target, quarantine, rows, k + 1, target', quarantine' + [r])
            else JudgedTo(refuses, target, quarantine, rows, k + 1, target'[r.key := r], quarantine')
  {
    hide Upserted, Kept, Refused;
    JudgedSnoc(refuses, target, rows, k);
  }

  lemma OneRefused(refuses: Row -> bool, e: Entry)
    ensures NoneRefused(refuses, [e]) <==> !refuses(e.row)
  {
    assert [e][0] == e;
  }

  // ---------- one table ----------

  class TableRunner {
    const t: Table
    /** Whether the source has the table, and how many of its columns are selected. */
    const live: bool
    const columns: nat
    /** Rows the target refuses whatever else happens. */
    const poison: Row -> bool

    var source: map<int, Row>
    var target: map<Key, Row>
    var quarantine: seq<Row>
    var mark: Option<int>

    /** What the daemon writes before each of the next statements, and how those end. */
    var writes: seq<seq<WriteOp>>
    var outcomes: seq<Outcome>

    ghost const origin: State
    ghost var high: Option<int>
    ghost var pass: Pass
    ghost var log: seq<Event>
    /** The length of the log just after a row was last filed that the target does not refuse. */
    ghost var astray: nat

    constructor (t: Table, live: bool, columns: nat, poison: Row -> bool, source: map<int, Row>,
                 ghost high: Option<int>,
                 writes: seq<seq<WriteOp>>, outcomes: seq<Outcome>)
      requires t.batch > 0 && PermittedScript(t, State(source, high, map[], [], None, Idle), writes)
      ensures Valid() && Now() == State(source, high, map[], [], None, Idle) && log == []
      ensures this.t == t && this.live == live && this.columns == columns && this.poison == poison
      ensures this.writes == writes && this.outcomes == outcomes
    {
      this.t, this.live, this.columns, this.poison := t, live, columns, poison;
      this.source, this.target, this.quarantine, this.mark := source, map[], [], None;
      this.writes, this.outcomes := writes, outcomes;
      this.origin, this.high, this.pass, this.log := State(source, high, map[], [], None, Idle), high, Idle, [];
      this.astray := 0;
    }

    ghost function Now(): State
      reads this
    {
      State(source, high, target, quarantine, mark, pass)
    }

    ghost predicate Valid()
      reads this
    {
      t.batch > 0 && Logged(Now()) && PermittedScript(t, Daemon(), writes)
    }

    /** The log is a legal run that ends in s, and no refused row has landed in it. */
    ghost predicate Logged(s: State)
      reads `log, `astray
    {
      LegalRun(t, origin, log) && Run(t, origin, log) == s && Obeyed(t, origin, poison, log, astray)
    }

    /** The part of the state the daemon's permissions depend on. */
    ghost function Daemon(): State
      reads this
    {
      State(source, high, map[], [], None, Idle)
    }

    ghost method Record(before: State, e: Event)
      requires Logged(before) && Legal(t, before, e) && Step(t, before, e) == Now() && !e.Deliver?
      modifies `log
      ensures log == old(log) + [e] && Logged(Now())
      ensures Deliveries(log) == Deliveries(old(log))
    {
      hide LegalRun, Run, Legal, Step, Obeyed, Deliveries;
      ObeyedBound(t, origin, poison, log, astray);
      RunSnoc(t, origin, log, e);
      DeliveriesSnoc(log, e);
      ObeyedSnoc(t, origin, poison, log, e, astray, astray);
      log := log + [e];
    }

    ghost method RecordDelivery(before: State, lands: bool)
      requires Logged(before) && Legal(t, before, Deliver(lands)) && Step(t, before, Deliver(lands)) == Now()
      requires lands ==> !poison(before.pass.scan.page.value.rows[0].row)
      modifies `log, `astray
      ensures log == old(log) + [Deliver(lands)] && Logged(Now())
      ensures Deliveries(log) == Deliveries(old(log)) + 1
      ensures astray == if lands == !poison(before.pass.scan.page.value.rows[0].row) then old(astray) else |log|
    {
      hide LegalRun, Run, Step, Obeyed, Deliveries;
      ObeyedBound(t, origin, poison, log, astray);
      RunSnoc(t, origin, log, Deliver(lands));
      DeliveriesSnoc(log, Deliver(lands));
      ghost var right := lands == !poison(before.pass.scan.page.value.rows[0].row);
      ghost var from := if right then astray else |log| + 1;
      ObeyedSnoc(t, origin, poison, log, Deliver(lands), astray, from);
      log, astray := log + [Deliver(lands)], from;
    }

    /** One write of the daemon. */
    method Apply(op: WriteOp)
      requires Logged(Now()) && Permitted(t, Daemon(), op)
      modifies `source, `high, `log
      ensures Logged(Now())
      ensures Daemon() == ApplyWrite(t, old(Daemon()), op)
      ensures log == old(log) + [Write(op)] && Deliveries(log) == Deliveries(old(log))
    {
      ghost var before := Now();
      match op {
        case Insert(id, r) => source := source[id := r]; high := Raise(t, high, r);
        case Update(id, r) => source := source[id := r]; high := Raise(t, high, r);
        case Delete(id) => source := source - {id};
      }
      Record(before, Write(op));
    }

    method ApplyAll(ops: seq<WriteOp>)
      requires Logged(Now()) && PermittedOps(t, Daemon(), ops)
      modifies `source, `high, `log
      ensures Logged(Now())
      ensures Daemon() == AfterOps(t, old(Daemon()), ops)
      ensures Grew(old(log), log, false) && Deliveries(log) == Deliveries(old(log))
    {
      var i := 0;
      while i < |ops|
        invariant i <= |ops|
        invariant Logged(Now())
        invariant PermittedOps(t, Daemon(), ops[i..])
        invariant AfterOps(t, Daemon(), ops[i..]) == AfterOps(t, old(Daemon()), ops)
        invariant Grew(old(log), log, false) && Deliveries(log) == Deliveries(old(log))
      {
        assert ops[i..][0] == ops[i] && ops[i..][1..] == ops[i + 1..];
        Apply(ops[i]);
        i := i + 1;
      }
    }

    /** A statement is issued: the daemon may have written in the meantime, and the statement
        may fail or find the context cancelled. */
    method Statement() returns (o: Outcome)
      requires Valid()
      modifies `source, `writes, `outcomes, `high, `log
      ensures Valid()
      ensures o == NextOutcome(old(outcomes)) && outcomes == LaterOutcomes(old(outcomes))
      ensures Grew(old(log), log, old(writes) == []) && Deliveries(log) == Deliveries(old(log))
      ensures old(writes) == [] ==> writes == [] && source == old(source) && log == old(log)
      ensures old(writes) != [] ==> |writes| < |old(writes)|
    {
      o := NextOutcome(outcomes);
      outcomes := LaterOutcomes(outcomes);
      if writes != [] {
        var ops := writes[0];
        writes := writes[1..];
        ApplyAll(ops);
      }
    }

    // ---------- reading ----------

    /** SELECT MAX(cursor) under the filters. */
    method SelectMax() returns (m: Option<int>)
      ensures m == MaxCursor(t, source)
    {
      var pool := set id | id in source && t.accepts(source[id]) && source[id].cursor.Some? :: source[id].cursor.value;
      m := Greatest(pool);
      assert pool == AcceptedCursors(t, source);
    }

    /** The maximum, read before anything else; a table without a cursor keeps its mark. */
    method MaxCursorValue(since: Option<int>) returns (ok: bool, next: Option<int>)
      requires Valid() && pass == Begun(since)
      modifies `source, `writes, `outcomes, `high, `log, `pass
      ensures Valid()
      ensures Faultless(old(outcomes)) ==> ok && Faultless(outcomes)
      ensures ok ==> pass == Measured(since, next)
      ensures !ok ==> pass == old(pass)
      ensures Extends(old(log), log)
      ensures old(writes) == [] && ok ==> log == old(log) + [ReadMax]
      ensures old(writes) == [] ==> writes == [] && source == old(source)
      ensures Deliveries(log) == Deliveries(old(log))
    {
      hide MaxCursor, Faultless, LegalRun, Run, PermittedScript, Obeyed;
      next := since;
      ok := true;
      if HasCursor(t) {
        var o := Statement();
        ok := o.Done?;
        if ok {
          next := SelectMax();
        }
      }
      if ok {
        ghost var before := Now();
        pass := Measured(since, next);
        Record(before, ReadMax);
      }
    }

    method SelectPage(sel: Selector, after: int) returns (rows: seq<Entry>)
      ensures rows == PageRows(t, source, sel, after)
    {
      var pool := set id | id in source && id > after && t.accepts(source[id]) && Selects(t, sel, source[id]);
      var ids := First(pool, t.batch);
      var table := source;
      rows := seq(|ids|, i requires 0 <= i < |ids| => Entry(ids[i], table[ids[i]]));
      assert pool == Candidates(t, source, sel, after);
      assert ids == PageIds(t, source, sel, after);
    }

    /** SELECT rowid, ... WHERE filters AND selector AND rowid > after ORDER BY rowid LIMIT n. */
    method Batch(sel: Selector, after: int) returns (ok: bool, rows: seq<Entry>)
      requires Valid() && Scanning(pass) && pass.scan.page.None?
      requires pass.scan.selectors != [] && pass.scan.selectors[0] == sel && pass.scan.after == after
      modifies `source, `writes, `outcomes, `high, `log, `pass
      ensures Valid()
      ensures Faultless(old(outcomes)) ==> ok && Faultless(outcomes)
      ensures ok ==>
                && rows == PageRows(t, source, sel, after)
                && pass == WithScan(old(pass), AfterRead(t, source, old(pass).scan))
      ensures !ok ==> pass == old(pass)
      ensures Grew(old(log), log, old(writes) == []) && Deliveries(log) == Deliveries(old(log))
      ensures old(writes) == [] ==> writes == [] && source == old(source)
      ensures old(writes) != [] ==> |writes| < |old(writes)|
    {
      hide LegalRun, Run, PermittedScript, PageRows, Deliveries, Obeyed;
      var o := Statement();
      ok, rows := o.Done?, [];
      if ok {
        rows := SelectPage(sel, after);
        ghost var before, was := Now(), log;
        pass := WithScan(pass, AfterRead(t, source, pass.scan));
        Record(before, ReadPage);
        GrewFurther(old(log), was, log, old(writes) == []);
      }
    }

    // ---------- writing ----------

    ghost predicate Holding(rows: seq<Entry>)
      reads this
    {
      Scanning(pass) && pass.scan.page.Some? && pass.scan.page.value.rows == rows
    }

    /** The pass once the rest of its page is `rows`. */
    ghost function WithRows(p: Pass, rows: seq<Entry>): Pass
      requires Scanning(p) && p.scan.page.Some?
    {
      WithScan(p, p.scan.(page := Some(p.scan.page.value.(rows := rows))))
    }

    /** One row is upserted, or filed when it does not land. */
    method Settle(r: Row, lands: bool, ghost rest: seq<Entry>)
      requires Valid() && Scanning(pass) && pass.scan.page.Some?
      requires pass.scan.page.value.rows != [] && pass.scan.page.value.rows[0].row == r
      requires rest == pass.scan.page.value.rows[1..] && (lands ==> !poison(r))
      modifies `target, `quarantine, `log, `astray, `pass
      ensures Valid() && pass == WithRows(old(pass), rest)
      ensures target == if lands then old(target)[r.key := r] else old(target)
      ensures quarantine == if lands then old(quarantine) else old(quarantine) + [r]
      ensures Grew(old(log), log, true) && Deliveries(log) == Deliveries(old(log)) + 1
      ensures lands == !poison(r) ==> astray == old(astray)
    {
      hide LegalRun, Run, PermittedScript, Obeyed;
      ghost var before := Now();
      if lands { target := target[r.key := r]; } else { quarantine := quarantine + [r]; }
      pass := WithRows(pass, rest);
      RecordDelivery(before, lands);
    }

    /** The transaction commits: every row is upserted, in order. */
    method UpsertAll(rows: seq<Entry>, ghost rest: seq<Entry>)
      requires Valid() && Holding(rows + rest) && NoneRefused(poison, rows)
      modifies `log, `astray, `target, `quarantine, `pass
      ensures Valid() && astray == old(astray)
      ensures pass == WithRows(old(pass), rest) && quarantine == old(quarantine)
      ensures target == Upserted(old(target), rows)
      ensures Deliveries(log) == Deliveries(old(log)) + |rows| && Grew(old(log), log, true)
    {
      hide LegalRun, Run, Legal, Step, PermittedScript, Grew, Deliveries, Upserted, Valid;
      GrewRefl(log, true);
      NothingUpserted(target, rows);
      var i := 0;
      assert rows[0..] == rows;
      while i < |rows|
        invariant i <= |rows|
        invariant Valid() && Scanning(pass) && pass.scan.page.Some? && astray == old(astray)
        invariant pass == WithRows(old(pass), rows[i..] + rest)
        invariant Deliveries(log) == Deliveries(old(log)) + i
        invariant target == Upserted(old(target), rows[..i]) && quarantine == old(quarantine)
        invariant Grew(old(log), log, true)
      {
        ghost var was := log;
        assert (rows[i..] + rest)[0] == rows[i] && (rows[i..] + rest)[1..] == rows[i + 1..] + rest;
        assert rows[..i + 1] == rows[..i] + [rows[i]];
        UpsertedSnoc(old(target), rows[..i], rows[i]);
        Settle(rows[i].row, true, rows[i + 1..] + rest);
        GrewFurther(old(log), was, log, true);
        i := i + 1;
      }
      assert rows[..i] == rows && rows[i..] + rest == rest;
    }

    /** All the rows in one transaction, or none: the statement may fail, and does when the
        target refuses one of the rows. */
    method WriteBatch(rows: seq<Entry>, ghost rest: seq<Entry>) returns (o: Outcome)
      requires Valid() && Holding(rows + rest)
      modifies `source, `writes, `outcomes, `high, `log, `astray, `target, `quarantine, `pass
      ensures Valid()
      ensures o == if NextOutcome(old(outcomes)).Done? && !NoneRefused(poison, rows) then Failed
                   else NextOutcome(old(outcomes))
      ensures outcomes == LaterOutcomes(old(outcomes)) && astray == old(astray)
      ensures o.Done? ==> pass == WithRows(old(pass), rest) && quarantine == old(quarantine)
      ensures o.Done? ==> Deliveries(log) == Deliveries(old(log)) + |rows|
      ensures o.Done? ==> target == Upserted(old(target), rows)
      ensures !o.Done? ==> pass == old(pass) && target == old(target) && quarantine == old(quarantine)
      ensures !o.Done? ==> Deliveries(log) == Deliveries(old(log))
      ensures Grew(old(log), log, old(writes) == [])
      ensures old(writes) == [] ==> writes == [] && source == old(source)
      ensures |writes| <= |old(writes)|
    {
      hide LegalRun, Run, Legal, Step, PermittedScript, Grew, Deliveries, Upserted, Valid;
      o := Statement();
      if o.Done? && exists i :: 0 <= i < |rows| && poison(rows[i].row) { o := Failed; }
      if !o.Done? { return; }
      ghost var was := log;
      UpsertAll(rows, rest);
      GrewFurther(old(log), was, log, old(writes) == []);
    }

    /** Files one refused row. */
    method FileRow(r: Row, ghost rest: seq<Entry>) returns (o: Outcome)
      requires Valid() && Scanning(pass) && pass.scan.page.Some?
      requires pass.scan.page.value.rows != [] && pass.scan.page.value.rows[0].row == r
      requires rest == pass.scan.page.value.rows[1..]
      modifies `source, `writes, `outcomes, `high, `log, `astray, `target, `quarantine, `pass
      ensures Valid() && target == old(target)
      ensures o == NextOutcome(old(outcomes)) && outcomes == LaterOutcomes(old(outcomes))
      ensures poison(r) ==> astray == old(astray)
      ensures pass == if o.Done? then WithRows(old(pass), rest) else old(pass)
      ensures quarantine == if o.Done? then old(quarantine) + [r] else old(quarantine)
      ensures Deliveries(log) == Deliveries(old(log)) + if o.Done? then 1 else 0
      ensures Grew(old(log), log, old(writes) == [])
      ensures old(writes) == [] ==> writes == [] && source == old(source)
      ensures |writes| <= |old(writes)|
    {
      hide LegalRun, Run, Legal, Step, PermittedScript, Grew, Deliveries;
      o := Statement();
      if o.Done? {
        ghost var was := log;
        Settle(r, false, rest);
        GrewFurther(old(log), was, log, old(writes) == []);
      }
    }

    /** One row on its own: written, or refused and filed. Only a cancelled context or a
        failure to file it stops the batch. */
    method WriteOne(e: Entry, ghost rest: seq<Entry>) returns (ok: bool, bad: nat)
      requires Valid() && Holding([e] + rest)
      modifies `source, `writes, `outcomes, `high, `log, `astray, `target, `quarantine, `pass
      ensures Valid() && bad == |quarantine| - |old(quarantine)|
      ensures ok ==> pass == WithRows(old(pass), rest)
      ensures ok ==> (bad == 0 <==> NextOutcome(old(outcomes)).Done? && !poison(e.row))
      ensures var o, o' := NextOutcome(old(outcomes)), NextOutcome(LaterOutcomes(old(outcomes)));
              ok <==> (o.Done? && !poison(e.row)) || (!o.Cancelled? && o'.Done?)
      ensures Faultless(old(outcomes)) ==>
                ok && Faultless(outcomes) && astray == old(astray) && (bad == 0 <==> !poison(e.row))
      ensures ok && bad == 0 ==> target == old(target)[e.row.key := e.row] && quarantine == old(quarantine)
      ensures ok && bad != 0 ==> target == old(target) && quarantine == old(quarantine) + [e.row]
      ensures ok ==> Deliveries(log) == Deliveries(old(log)) + 1
      ensures !ok ==> pass == old(pass) && target == old(target) && quarantine == old(quarantine)
      ensures !ok ==> Deliveries(log) == Deliveries(old(log)) && bad == 0
      ensures Grew(old(log), log, old(writes) == [])
      ensures old(writes) == [] ==> writes == [] && source == old(source)
      ensures |writes| <= |old(writes)|
    {
      hide LegalRun, Run, Legal, Step, PermittedScript, Grew, Deliveries;
      var o := WriteBatch([e], rest);
      ok, bad := o.Done?, 0;
      assert [e][..0] == [] && (NoneRefused(poison, [e]) <==> !poison(e.row)) by { OneRefused(poison, e); }
      if o.Failed? {
        ghost var was := log;
        assert ([e] + rest)[1..] == rest;
        var filed := FileRow(e.row, rest);
        ok, bad := filed.Done?, if filed.Done? then 1 else 0;
        GrewFurther(old(log), was, log, old(writes) == []);
      }
    }

    /** Row by row, filing what the target refuses. */
    method WriteEach(rows: seq<Entry>) returns (ok: bool, bad: nat)
      requires Valid() && Holding(rows)
      modifies `source, `writes, `outcomes, `high, `log, `astray, `target, `quarantine, `pass
      ensures Valid() && Scanning(pass) && pass.scan.page.Some?
      ensures pass == WithRows(old(pass), pass.scan.page.value.rows)
      ensures ok ==> pass == WithRows(old(pass), [])
      ensures ok ==> Deliveries(log) == Deliveries(old(log)) + |rows|
      ensures bad == |quarantine| - |old(quarantine)|
      ensures Faultless(old(outcomes)) ==>
                && ok && Faultless(outcomes) && astray == old(astray)
                && JudgedTo(poison, old(target), old(quarantine), rows, |rows|, target, quarantine)
      ensures Grew(old(log), log, old(writes) == [])
      ensures old(writes) == [] ==> writes == [] && source == old(source)
      ensures |writes| <= |old(writes)|
    {
      hide LegalRun, Run, Legal, Step, PermittedScript, Grew, Deliveries, Valid, Faultless, JudgedTo;
      ok, bad := true, 0;
      var i := 0;
      GrewRefl(log, old(writes) == []);
      JudgedToNone(poison, target, quarantine, rows);
      assert rows[0..] == rows && pass == WithRows(old(pass), rows[0..]);
      while ok && i < |rows|
        invariant i <= |rows|
        invariant Valid() && Scanning(pass) && pass.scan.page.Some?
        invariant pass == WithRows(old(pass), pass.scan.page.value.rows)
        invariant ok ==> pass == WithRows(old(pass), rows[i..]) && Deliveries(log) == Deliveries(old(log)) + i
        invariant bad == |quarantine| - |old(quarantine)|
        invariant Faultless(old(outcomes)) ==>
                    && ok && Faultless(outcomes) && astray == old(astray)
                    && JudgedTo(poison, old(target), old(quarantine), rows, i, target, quarantine)
        invariant Grew(old(log), log, old(writes) == [])
        invariant old(writes) == [] ==> writes == [] && source == old(source)
        invariant |writes| <= |old(writes)|
      {
        ghost var was := log;
        assert rows[i..] == [rows[i]] + rows[i + 1..];
        if Faultless(old(outcomes)) {
          JudgedToNext(poison, old(target), old(quarantine), rows, i, target, quarantine);
        }
        var one: nat;
        ok, one := WriteOne(rows[i], rows[i + 1..]);
        GrewFurther(old(log), was, log, old(writes) == []);
        bad := bad + one;
        i := i + 1;
      }
      assert ok ==> rows[i..] == [];
    }

    /** The whole page at once when the target takes it; otherwise row by row. With no
        statement failing the rows the target takes are upserted in order, exactly those it
        refuses are filed, and their number is returned. */
    method WriteBatchIsolating(rows: seq<Entry>) returns (ok: bool, bad: nat)
      requires Valid() && Holding(rows)
      modifies `source, `writes, `outcomes, `high, `log, `astray, `target, `quarantine, `pass
      ensures Valid() && Scanning(pass) && pass.scan.page.Some?
      ensures pass == WithRows(old(pass), pass.scan.page.value.rows)
      ensures ok ==> pass == WithRows(old(pass), [])
      ensures ok ==> Deliveries(log) == Deliveries(old(log)) + |rows|
      ensures bad == |quarantine| - |old(quarantine)|
      ensures Faultless(old(outcomes)) ==>
                && ok && Faultless(outcomes) && astray == old(astray)
                && target == Upserted(old(target), Kept(poison, rows))
                && quarantine == old(quarantine) + Refused(poison, rows) && bad == |Refused(poison, rows)|
      ensures NextOutcome(old(outcomes)).Cancelled? ==>
                !ok && pass == old(pass) && target == old(target) && quarantine == old(quarantine)
      ensures Grew(old(log), log, old(writes) == [])
      ensures old(writes) == [] ==> writes == [] && source == old(source)
      ensures |writes| <= |old(writes)|
    {
      hide LegalRun, Run, Legal, Step, PermittedScript, Grew, Deliveries, Valid, Faultless, NoneRefused;
      hide Upserted, Kept, Refused;
      assert rows + [] == rows && rows[..|rows|] == rows;
      if NoneRefused(poison, rows) { JudgedToAll(poison, target, quarantine, rows); }
      ghost var n := |quarantine|;
      var o := WriteBatch(rows, []);
      ok, bad := o.Done?, 0;
      if o.Failed? {
        ghost var was := log;
        ok, bad := WriteEach(rows);
        GrewFurther(old(log), was, log, old(writes) == []);
      }
    }

    // ---------- one selector, page by page ----------

    ghost function Above(after: int): set<int>
      reads `source
    {
      set id | id in source && id > after
    }

    /** A sync pass is done with a page: the next page, or the next selector. */
    method TurnPage(ghost scan: Scan)
      requires Valid() && pass.Syncing? && pass.scan == scan && scan.selectors != []
      requires scan.page.Some? && scan.page.value.rows == []
      modifies `log, `pass
      ensures Valid() && pass == WithScan(old(pass), AfterPage(scan))
      ensures Grew(old(log), log, true) && Deliveries(log) == Deliveries(old(log))
    {
      ghost var before := Now();
      pass := WithScan(pass, AfterPage(scan));
      Record(before, EndPage);
    }

    /** One page of a sync pass: read, write, turn. */
    method SyncPage(sel: Selector, after: int, ghost rest: seq<Selector>, ghost next: Option<int>)
        returns (ok: bool, more: bool, last: int, rows: nat, bad: nat)
      requires Valid() && pass.Syncing? && pass.scan == Scan(next, [sel] + rest, after, None)
      modifies `source, `writes, `outcomes, `high, `log, `astray, `target, `quarantine, `pass
      ensures Valid() && pass.Syncing? && pass.since == old(pass.since)
      ensures Faultless(old(outcomes)) ==> ok && Faultless(outcomes) && astray == old(astray)
      ensures ok ==> pass.scan == if more then Scan(next, [sel] + rest, last, None) else Scan(next, rest, 0, None)
      ensures ok ==> rows == Deliveries(log) - Deliveries(old(log))
      ensures bad == |quarantine| - |old(quarantine)|
      ensures Grew(old(log), log, old(writes) == [])
      ensures old(writes) == [] ==> writes == [] && source == old(source)
      ensures old(writes) != [] ==> |writes| < |old(writes)|
      ensures ok && more && old(writes) == [] ==> last > after && last in source
    {
      hide LegalRun, Run, Legal, Step, PermittedScript, Grew, Deliveries, PageRows, Valid, Faultless;
      hide Upserted, Kept, Refused, NextOutcome, LaterOutcomes;
      var page;
      more, last, rows, bad := false, after, 0, 0;
      ok, page := Batch(sel, after);
      if !ok || |page| == 0 {
        assert ([sel] + rest)[1..] == rest;
        return;
      }
      last := page[|page| - 1].id;
      PageEntry(t, source, sel, after, |page| - 1);
      ghost var was := log;
      ok, bad := WriteBatchIsolating(page);
      GrewFurther(old(log), was, log, old(writes) == []);
      if !ok { return; }
      rows, more := |page|, |page| == t.batch;
      ghost var wrote := log;
      assert ([sel] + rest)[1..] == rest;
      TurnPage(Scan(next, [sel] + rest, last, Some(Page([], more))));
      GrewFurther(old(log), wrote, log, old(writes) == []);
    }

    method Drain(sel: Selector, ghost rest: seq<Selector>, ghost next: Option<int>)
        returns (ok: bool, rows: nat, bad: nat)
      requires Valid() && pass.Syncing? && pass.scan == Scan(next, [sel] + rest, 0, None)
      modifies `source, `writes, `outcomes, `high, `log, `astray, `target, `quarantine, `pass
      ensures Valid() && pass.Syncing? && pass.since == old(pass.since)
      ensures Faultless(old(outcomes)) ==> ok && Faultless(outcomes) && astray == old(astray)
      ensures ok ==> pass.scan == Scan(next, rest, 0, None)
      ensures ok ==> rows == Deliveries(log) - Deliveries(old(log))
      ensures bad == |quarantine| - |old(quarantine)|
      ensures Grew(old(log), log, old(writes) == [])
      ensures old(writes) == [] ==> writes == [] && source == old(source)
    {
      hide LegalRun, Run, Legal, Step, PermittedScript, Grew, Deliveries, Valid, Faultless, Upserted, Kept, Refused;
      GrewRefl(log, old(writes) == []);
      var after, more := 0, true;
      ok, rows, bad := true, 0, 0;
      while ok && more
        invariant Faultless(old(outcomes)) ==> ok && Faultless(outcomes) && astray == old(astray)
        invariant Valid() && pass.Syncing? && pass.since == old(pass.since)
        invariant ok ==> pass.scan == if more then Scan(next, [sel] + rest, after, None) else Scan(next, rest, 0, None)
        invariant ok ==> rows == Deliveries(log) - Deliveries(old(log))
        invariant bad == |quarantine| - |old(quarantine)|
        invariant Grew(old(log), log, old(writes) == [])
        invariant old(writes) == [] ==> writes == [] && source == old(source)
        decreases ok && more, |writes|, |Above(after)|
      {
        ghost var was, silent, above := log, writes == [], Above(after);
        var n, b: nat;
        ok, more, after, n, b := SyncPage(sel, after, rest, next);
        GrewFurther(old(log), was, log, old(writes) == []);
        rows, bad := rows + n, bad + b;
        if ok && more && silent {
          assert Above(after) <= above && after in above && after !in Above(after);
          Shrinks(Above(after), above, after);
        }
      }
    }

    // ---------- selectors ----------

    /** The keys the target holds as unsettled: any of them, up to the limit, in any order. */
    method ListOpenKeys() returns (keys: seq<Key>)
      requires t.follow.OpenRow? && t.singleKey
      ensures OpenListing(t, target, keys)
    {
      keys := [];
      var rest := set k | k in target && IsOpen(t, target[k]);
      while rest != {} && |keys| < RESCAN_OPEN_LIMIT
        invariant rest <= OpenKeys(t, target) && |keys| <= RESCAN_OPEN_LIMIT
        invariant forall k :: k in OpenKeys(t, target) <==> k in rest || k in keys
        invariant forall k :: k in keys ==> k !in rest
        invariant forall i, j :: 0 <= i < j < |keys| ==> keys[i] != keys[j]
        decreases |rest|
      {
        var k := PickOne(rest);
        keys := keys + [k];
        rest := rest - {k};
      }
    }

    /** The open keys of the target, in chunks; a key of several columns is not rescanned. */
    method RescanOpen() returns (ok: bool, rescan: seq<Selector>, ghost keys: seq<Key>)
      requires Valid() && t.follow.OpenRow?
      modifies `source, `writes, `outcomes, `high, `log
      ensures Valid()
      ensures Faultless(old(outcomes)) ==> ok && Faultless(outcomes)
      ensures ok ==> OpenListing(t, target, keys) && rescan == Chunks(keys)
      ensures Grew(old(log), log, old(writes) == []) && Deliveries(log) == Deliveries(old(log))
      ensures old(writes) == [] ==> writes == [] && source == old(source) && log == old(log)
    {
      hide Valid, Grew, Deliveries, OpenListing;
      GrewRefl(log, old(writes) == []);
      ok, rescan, keys := true, [], [];
      if t.singleKey {
        var o := Statement();
        ok := o.Done?;
        if ok {
          var open := ListOpenKeys();
          keys := open;
          var chunks := CutUp(open);
          rescan := KeySelectors(chunks);
        }
      } else {
        NotListed();
      }
    }

    lemma NotListed()
      requires !(t.follow.OpenRow? && t.singleKey)
      ensures OpenListing(t, target, [])
    {
    }

    /** The predicates that define "changed", from the watermark the pass started with. */
    method BuildSelectors(since: Option<int>, ghost next: Option<int>)
        returns (ok: bool, sels: seq<Selector>, ghost keys: seq<Key>)
      requires Valid() && pass == Measured(since, next)
      modifies `source, `writes, `outcomes, `high, `log, `pass
      ensures Valid()
      ensures Faultless(old(outcomes)) ==> ok && Faultless(outcomes)
      ensures ok ==> sels == Selectors(t, since, keys) && pass == Syncing(since, Scan(next, sels, 0, None))
      ensures !ok ==> pass == old(pass)
      ensures Extends(old(log), log) && Deliveries(log) == Deliveries(old(log))
      ensures ok ==> SelectorsRead(old(log), log)
      ensures old(writes) == [] && ok ==> log == old(log) + [ReadSelectors(keys)]
      ensures old(writes) == [] ==> writes == [] && source == old(source)
    {
      hide LegalRun, Run, PermittedScript, OpenListing, Deliveries, Chunks, Back, Obeyed;
      if !t.follow.OpenRow? { NotListed(); }
      ok, sels, keys := true, [All], [];
      match t.follow {
        case AppendOnly => sels := [AdvanceFrom(since, false)];
        case Mutable => sels := [if since.None? then All else Advance(Back(t, since.value), true)];
        case OpenRow =>
          var rescan;
          ok, rescan, keys := RescanOpen();
          sels := [AdvanceFrom(since, false)] + rescan;
        case FollowParent => sels := [if since.None? then All else Children(Back(t, since.value))];
        case Snapshot =>
      }
      if ok {
        ghost var before := Now();
        pass := Syncing(since, Scan(next, sels, 0, None));
        Record(before, ReadSelectors(keys));
      }
    }

    // ---------- a sync pass ----------

    /** The watermarks are read at the start of the pass. */
    method Begin() returns (since: Option<int>)
      requires Valid() && pass.Idle?
      modifies `log, `pass
      ensures Valid() && since == mark && pass == Begun(since)
      ensures log == old(log) + [BeginSync] && Deliveries(log) == Deliveries(old(log))
    {
      ghost var before := Now();
      since, pass := mark, Begun(mark);
      Record(before, BeginSync);
    }

    /** The pass ends without finishing: what it held in memory is gone. */
    ghost method Abandon()
      requires Valid() && !pass.Idle?
      modifies `log, `pass
      ensures Valid() && pass.Idle?
      ensures log == old(log) + [Crash] && Deliveries(log) == Deliveries(old(log))
    {
      ghost var before := Now();
      pass := Idle;
      Record(before, Crash);
    }

    method DrainAll(sels: seq<Selector>, ghost next: Option<int>) returns (ok: bool, rows: nat, bad: nat)
      requires Valid() && pass.Syncing? && pass.scan == Scan(next, sels, 0, None)
      modifies `source, `writes, `outcomes, `high, `log, `astray, `target, `quarantine, `pass
      ensures Valid() && pass.Syncing? && pass.since == old(pass.since)
      ensures Faultless(old(outcomes)) ==> ok && Faultless(outcomes) && astray == old(astray)
      ensures ok ==> pass.scan == Scan(next, [], 0, None)
      ensures ok ==> rows == Deliveries(log) - Deliveries(old(log))
      ensures bad == |quarantine| - |old(quarantine)|
      ensures Grew(old(log), log, old(writes) == [])
      ensures old(writes) == [] ==> writes == [] && source == old(source)
    {
      hide LegalRun, Run, Legal, Step, PermittedScript, Grew, Deliveries, Valid, Faultless, Upserted, Kept, Refused;
      GrewRefl(log, old(writes) == []);
      ok, rows, bad := true, 0, 0;
      var i := 0;
      assert sels[0..] == sels;
      while ok && i < |sels|
        invariant i <= |sels|
        invariant Faultless(old(outcomes)) ==> ok && Faultless(outcomes) && astray == old(astray)
        invariant Valid() && pass.Syncing? && pass.since == old(pass.since)
        invariant ok ==> pass.scan == Scan(next, sels[i..], 0, None)
        invariant ok ==> rows == Deliveries(log) - Deliveries(old(log))
        invariant bad == |quarantine| - |old(quarantine)|
        invariant Grew(old(log), log, old(writes) == [])
        invariant old(writes) == [] ==> writes == [] && source == old(source)
      {
        ghost var was := log;
        assert sels[i..] == [sels[i]] + sels[i + 1..];
        var n, b: nat;
        ok, n, b := Drain(sels[i], sels[i + 1..], next);
        GrewFurther(old(log), was, log, old(writes) == []);
        rows, bad := rows + n, bad + b;
        i := i + 1;
      }
    }

    /** The watermark is written once every selector has been drained. */
    method SetWatermark(next: Option<int>) returns (ok: bool)
      requires Valid() && pass.Syncing? && pass.scan == Scan(next, [], 0, None)
      modifies `source, `writes, `outcomes, `high, `log, `mark, `pass
      ensures Valid()
      ensures Faultless(old(outcomes)) ==> ok && Faultless(outcomes)
      ensures ok ==> pass.Idle? && mark == next && Finished(old(log), log)
      ensures !ok ==> pass == old(pass) && mark == old(mark)
      ensures Extends(old(log), log) && Deliveries(log) == Deliveries(old(log))
      ensures old(writes) == [] && ok ==> log == old(log) + [Finish]
      ensures old(writes) == [] ==> writes == [] && source == old(source)
    {
      hide LegalRun, Run, PermittedScript, Obeyed;
      var o := Statement();
      ok := o.Done?;
      if ok {
        ghost var before := Now();
        mark, pass := next, Idle;
        Record(before, Finish);
      }
    }

    /** The marks, the selectors and the scan, in that order. */
    method ReadAndDrain(since: Option<int>)
        returns (ok: bool, next: Option<int>, rows: nat, bad: nat, ghost keys: seq<Key>, ghost l2: seq<Event>)
      requires Valid() && pass == Begun(since)
      modifies `source, `writes, `outcomes, `high, `log, `astray, `target, `quarantine, `pass
      ensures Valid() && !pass.Idle? && Extends(old(log), log)
      ensures Faultless(old(outcomes)) ==> ok && Faultless(outcomes) && astray == old(astray)
      ensures ok ==> pass.Syncing? && pass.scan == Scan(next, [], 0, None)
      ensures ok ==> rows == Deliveries(log) - Deliveries(old(log)) && bad == |quarantine| - |old(quarantine)|
      ensures ok ==> SelectorsRead(old(log), l2) && Grew(l2, log, false)
      ensures ok && old(writes) == [] ==> l2 == old(log) + [ReadMax, ReadSelectors(keys)] && Grew(l2, log, true)
      ensures old(writes) == [] ==> writes == [] && source == old(source)
    {
      hide LegalRun, Run, Legal, Step, PermittedScript, Extends, Deliveries, Valid, Selectors;
      var sels;
      rows, bad, keys, l2 := 0, 0, [], [];
      ok, next := MaxCursorValue(since);
      if !ok { return; }
      ghost var l1 := log;
      ok, sels, keys := BuildSelectors(since, next);
      ExtendsFurther(old(log), l1, log);
      if !ok { return; }
      l2 := log;
      SelectorsReadSince(old(log), l1, l2);
      ok, rows, bad := DrainAll(sels, next);
      GrewExtends(l2, log, old(writes) == []);
      ExtendsFurther(old(log), l2, log);
    }

    method SyncLive(since: Option<int>) returns (ok: bool, rows: nat, bad: nat)
      requires Valid() && pass == Begun(since)
      modifies `source, `writes, `outcomes, `high, `log, `astray, `target, `quarantine, `pass, `mark
      ensures Valid() && Extends(old(log), log)
      ensures Faultless(old(outcomes)) ==> ok && Faultless(outcomes) && astray == old(astray)
      ensures !ok ==> !pass.Idle? && mark == old(mark)
      ensures ok ==>
                && pass.Idle? && Synced(old(log), log)
                && rows == Deliveries(log) - Deliveries(old(log)) && bad == |quarantine| - |old(quarantine)|
      ensures ok && old(writes) == [] ==> source == old(source) && QuietLog(t, old(log), log)
    {
      hide LegalRun, Run, Legal, Step, PermittedScript, Extends, Deliveries, Valid;
      var next;
      ghost var keys, l2;
      ok, next, rows, bad, keys, l2 := ReadAndDrain(since);
      if !ok { return; }
      ghost var l3 := log;
      ok := SetWatermark(next);
      ExtendsFurther(old(log), l3, log);
      if ok {
        SyncShape(old(log), l2, l3, log);
      }
      if ok && old(writes) == [] {
        QuietShape(t, old(log), l2, l3, log, keys);
      }
    }

    /** The passage of one table, its watermark already read. An error leaves the watermark
        where it was. */
    method SyncTable(since: Option<int>) returns (ok: bool, result: TableResult)
      requires Valid() && pass == Begun(since)
      modifies `source, `writes, `outcomes, `high, `log, `astray, `target, `quarantine, `pass, `mark
      ensures Valid() && pass.Idle? && Extends(old(log), log)
      ensures Faultless(old(outcomes)) ==> ok && Faultless(outcomes) && astray == old(astray)
      ensures !ok || result.skipped.Some? ==> mark == old(mark)
      ensures ok && result.skipped.None? ==>
                && Synced(old(log), log)
                && result.rows == Deliveries(log) - Deliveries(old(log))
                && result.quarantined == |quarantine| - |old(quarantine)|
      ensures ok && result.skipped.None? && old(writes) == [] ==> source == old(source) && QuietLog(t, old(log), log)
      ensures Faultless(old(outcomes)) ==> Obeyed(t, origin, poison, log, |old(log)|)
      ensures ok ==> (result.skipped.Some? <==> !live || columns == 0)
    {
      hide LegalRun, Run, Legal, Step, PermittedScript, Obeyed;
      ObeyedBound(t, origin, poison, log, astray);
      if !live {
        ok, result := true, TableResult(0, 0, Some("not in this Apiary database"));
      } else if columns == 0 {
        ok, result := true, TableResult(0, 0, Some("every column is excluded"));
      } else {
        var rows, bad;
        ok, rows, bad := SyncLive(since);
        result := TableResult(rows, bad, None);
      }
      ghost var was := log;
      if !ok || result.skipped.Some? {
        Abandon();
        ExtendsFurther(old(log), was, log);
      }
      if Faultless(old(outcomes)) { ObeyedFrom(t, origin, poison, log, astray, |old(log)|); }
    }

    // ---------- a backfill ----------

    /** The watermark is read before the scan; nothing is stored yet. */
    method MeasureBackfill() returns (ok: bool, next: Option<int>)
      requires Valid() && pass.Idle?
      modifies `source, `writes, `outcomes, `high, `log, `pass
      ensures Valid() && Deliveries(log) == Deliveries(old(log))
      ensures Faultless(old(outcomes)) ==> ok && Faultless(outcomes)
      ensures ok ==> pass == Filling(false, Scan(next, [All], 0, None))
      ensures ok ==> Began(old(log), log)
      ensures ok && old(writes) == [] ==> log == old(log) + [BeginBackfill]
      ensures !ok ==> pass.Idle?
      ensures !ok ==> Extends(old(log), log)
      ensures old(writes) == [] ==> writes == [] && source == old(source)
    {
      hide MaxCursor, Faultless, LegalRun, Run, PermittedScript, Obeyed;
      ok, next := true, None;
      if HasCursor(t) {
        var o := Statement();
        ok := o.Done?;
        if ok {
          next := SelectMax();
        }
      }
      if ok {
        ghost var before := Now();
        pass := Filling(false, Scan(next, [All], 0, None));
        Record(before, BeginBackfill);
      }
    }

    /** After each page the backfill stores the watermark it read before the scan. */
    method StoreMark(next: Option<int>, ghost scan: Scan) returns (ok: bool)
      requires Valid() && pass.Filling? && pass.scan == scan && scan.next == next && scan.selectors != []
      requires scan.page.Some? && scan.page.value.rows == []
      modifies `source, `writes, `outcomes, `high, `log, `mark, `pass
      ensures Valid() && Deliveries(log) == Deliveries(old(log))
      ensures Faultless(old(outcomes)) ==> ok && Faultless(outcomes)
      ensures ok ==> mark == next && pass == Filling(true, AfterPage(scan))
      ensures !ok ==> pass == old(pass) && mark == old(mark)
      ensures Grew(old(log), log, old(writes) == [])
      ensures old(writes) == [] ==> writes == [] && source == old(source)
      ensures |writes| <= |old(writes)|
    {
      hide LegalRun, Run, PermittedScript, Obeyed;
      var o := Statement();
      ok := o.Done?;
      if ok {
        ghost var before, was := Now(), log;
        mark, pass := next, Filling(true, AfterPage(scan));
        Record(before, EndPage);
        GrewFurther(old(log), was, log, old(writes) == []);
      }
    }

    /** One page of a backfill: read, write, store the watermark. */
    method BackfillPage(after: int, next: Option<int>)
        returns (ok: bool, more: bool, last: int, rows: nat, bad: nat)
      requires Valid() && pass.Filling? && pass.scan == Scan(next, [All], after, None)
      modifies `source, `writes, `outcomes, `high, `log, `astray, `target, `quarantine, `pass, `mark
      ensures Valid() && pass.Filling?
      ensures Faultless(old(outcomes)) ==> ok && Faultless(outcomes) && astray == old(astray)
      ensures ok ==> pass.scan == if more then Scan(next, [All], last, None) else Scan(next, [], 0, None)
      ensures ok ==> rows == Deliveries(log) - Deliveries(old(log))
      ensures bad == |quarantine| - |old(quarantine)|
      ensures mark == old(mark) || mark == next
      ensures Grew(old(log), log, old(writes) == [])
      ensures old(writes) == [] ==> writes == [] && source == old(source)
      ensures old(writes) != [] ==> |writes| < |old(writes)|
      ensures ok && more && old(writes) == [] ==> last > after && last in source
    {
      hide LegalRun, Run, Legal, Step, PermittedScript, Grew, Deliveries, PageRows, Valid, Faultless;
      hide Upserted, Kept, Refused, NextOutcome, LaterOutcomes;
      var page;
      more, last, rows, bad := false, after, 0, 0;
      assert [All][1..] == [];
      ok, page := Batch(All, after);
      if !ok || |page| == 0 { return; }
      last := page[|page| - 1].id;
      PageEntry(t, source, All, after, |page| - 1);
      ghost var was := log;
      ok, bad := WriteBatchIsolating(page);
      GrewFurther(old(log), was, log, old(writes) == []);
      if !ok { return; }
      rows := |page|;
      ghost var wrote := log;
      ok := StoreMark(next, Scan(next, [All], last, Some(Page([], |page| == t.batch))));
      more := ok && |page| == t.batch;
      GrewFurther(old(log), wrote, log, old(writes) == []);
    }

    method BackfillPages(next: Option<int>) returns (ok: bool, rows: nat, bad: nat)
      requires Valid() && pass.Filling? && pass.scan == Scan(next, [All], 0, None)
      modifies `source, `writes, `outcomes, `high, `log, `astray, `target, `quarantine, `pass, `mark
      ensures Valid() && pass.Filling?
      ensures Faultless(old(outcomes)) ==> ok && Faultless(outcomes) && astray == old(astray)
      ensures ok ==> pass.scan == Scan(next, [], 0, None)
      ensures ok ==> rows == Deliveries(log) - Deliveries(old(log))
      ensures bad == |quarantine| - |old(quarantine)|
      ensures mark == old(mark) || mark == next
      ensures Grew(old(log), log, old(writes) == [])
      ensures old(writes) == [] ==> source == old(source)
    {
      hide LegalRun, Run, Legal, Step, PermittedScript, Grew, Deliveries, Valid, Faultless, Upserted, Kept, Refused;
      GrewRefl(log, old(writes) == []);
      var after, more := 0, true;
      ok, rows, bad := true, 0, 0;
      while ok && more
        invariant Faultless(old(outcomes)) ==> ok && Faultless(outcomes) && astray == old(astray)
        invariant Valid() && pass.Filling?
        invariant ok ==> pass.scan == if more then Scan(next, [All], after, None) else Scan(next, [], 0, None)
        invariant ok ==> rows == Deliveries(log) - Deliveries(old(log))
        invariant bad == |quarantine| - |old(quarantine)|
        invariant mark == old(mark) || mark == next
        invariant Grew(old(log), log, old(writes) == [])
        invariant old(writes) == [] ==> writes == [] && source == old(source)
        decreases ok && more, |writes|, |Above(after)|
      {
        ghost var was, silent, above := log, writes == [], Above(after);
        var n, b: nat;
        ok, more, after, n, b := BackfillPage(after, next);
        GrewFurther(old(log), was, log, old(writes) == []);
        rows, bad := rows + n, bad + b;
        if ok && more && silent {
          assert Above(after) <= above && after in above && after !in Above(after);
          Shrinks(Above(after), above, after);
        }
      }
    }

    method FinishBackfill(ghost next: Option<int>)
      requires Valid() && pass.Filling? && pass.scan == Scan(next, [], 0, None)
      modifies `log, `pass
      ensures Valid() && pass.Idle?
      ensures log == old(log) + [Finish] && Deliveries(log) == Deliveries(old(log))
    {
      ghost var before := Now();
      pass := Idle;
      Record(before, Finish);
    }

    method BackfillLive() returns (ok: bool, rows: nat, bad: nat)
      requires Valid() && pass.Idle?
      modifies `source, `writes, `outcomes, `high, `log, `astray, `target, `quarantine, `pass, `mark
      ensures Valid() && old(log) <= log
      ensures Faultless(old(outcomes)) ==> ok && Faultless(outcomes) && astray == old(astray)
      ensures ok ==>
                && pass.Idle? && Backfilled(old(log), log)
                && rows == Deliveries(log) - Deliveries(old(log)) && bad == |quarantine| - |old(quarantine)|
      ensures ok && old(writes) == [] ==> source == old(source) && QuietFillLog(old(log), log)
    {
      hide LegalRun, Run, Legal, Step, PermittedScript, Deliveries, Valid;
      var next;
      rows, bad := 0, 0;
      ok, next := MeasureBackfill();
      if !ok { return; }
      ghost var began := log;
      ok, rows, bad := BackfillPages(next);
      if !ok { return; }
      ghost var l3 := log;
      FinishBackfill(next);
      BackfillLog(old(log), began, l3, log, old(writes) == []);
    }

    /** The history of one table. An error may leave the watermark at the value read before
        the scan with pages still unread; a completed backfill repairs that. */
    method BackfillTable() returns (ok: bool, result: TableResult)
      requires Valid() && pass.Idle?
      modifies `source, `writes, `outcomes, `high, `log, `astray, `target, `quarantine, `pass, `mark
      ensures Valid() && pass.Idle? && old(log) <= log
      ensures Faultless(old(outcomes)) ==> ok && Faultless(outcomes) && astray == old(astray)
      ensures ok && result.skipped.None? ==>
                && Backfilled(old(log), log)
                && result.rows == Deliveries(log) - Deliveries(old(log))
                && result.quarantined == |quarantine| - |old(quarantine)|
      ensures ok && result.skipped.None? && old(writes) == [] ==> source == old(source) && QuietFillLog(old(log), log)
      ensures ok && result.skipped.Some? ==> Now() == old(Now()) && log == old(log)
      ensures Faultless(old(outcomes)) ==> Obeyed(t, origin, poison, log, |old(log)|)
      ensures ok ==> (result.skipped.Some? <==> !live || columns == 0)
    {
      hide LegalRun, Run, Legal, Step, PermittedScript, Obeyed;
      ObeyedBound(t, origin, poison, log, astray);
      ok, result := true, TableResult(0, 0, None);
      if !live {
        result := TableResult(0, 0, Some("not in this Apiary database"));
      } else if columns == 0 {
        result := TableResult(0, 0, Some("every column is excluded"));
      } else {
        var rows, bad;
        ok, rows, bad := BackfillLive();
        result := TableResult(rows, bad, None);
      }
      if !ok && !pass.Idle? { Abandon(); }
      if Faultless(old(outcomes)) { ObeyedFrom(t, origin, poison, log, astray, |old(log)|); }
    }
  }
}
