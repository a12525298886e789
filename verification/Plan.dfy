/** The plan: what the catalog obliges each class to declare, and how the global defaults and
    a table's own settings combine. These are what the replication model takes for granted of
    a table. */
module Plan {
  import opened Prelude
  import opened Filters
  import Grammar
  import Replication
  import Sql
  import Templates
  import Enrich

  // ---------- the catalog ----------

  datatype Kind = Integer | Timestamp | OtherKind(name: string)

  datatype Cursor = Cursor(column: string, kind: Kind)

  datatype StateColumn = StateColumn(column: string, terminal: seq<string>)

  datatype Parent = Parent(table: string, local: string, remote: string)

  datatype Class = Known(follow: Replication.Class) | OtherClass(name: string)

  datatype Entry = Entry(
    name: string, class_: Class, key: seq<string>, cursor: Option<Cursor>, state: Option<StateColumn>,
    parent: Option<Parent>, timeColumn: string, timestamps: seq<string>)

  predicate Blank(s: string) {
    Templates.TrimSpace(s) == ""
  }

  /** What a class requires of an entry. */
  predicate ClassOk(e: Entry)
    requires e.class_.Known?
  {
    match e.class_.follow
    case AppendOnly => e.cursor.Some?
    case Mutable => e.cursor.Some?
    case OpenRow => e.cursor.Some? && e.state.Some? && e.state.value.terminal != []
    case FollowParent => e.parent.Some? && e.cursor.None?
    case Snapshot => e.cursor.None?
  }

  predicate CursorOk(e: Entry) {
    e.cursor.Some? ==> !Blank(e.cursor.value.column) && !e.cursor.value.kind.OtherKind?
  }

  predicate EntryOk(e: Entry) {
    && !Blank(e.name) && e.class_.Known? && e.key != [] && ClassOk(e) && CursorOk(e)
    && (e.timeColumn != "" && e.timestamps != [] ==> e.timeColumn in e.timestamps)
    && (e.state.Some? ==> !Blank(e.state.value.column))
  }

  predicate ParentOk(e: Entry, names: set<string>) {
    e.parent.Some? ==>
      e.parent.value.table != e.name && e.parent.value.table in names
      && e.parent.value.local != "" && e.parent.value.remote != ""
  }

  function Names(entries: seq<Entry>): set<string> {
    set i | 0 <= i < |entries| :: entries[i].name
  }

  predicate CatalogOk(version: int, compat: string, entries: seq<Entry>) {
    && version == 1 && !Blank(compat) && entries != []
    && (forall i :: 0 <= i < |entries| ==> EntryOk(entries[i]) && ParentOk(entries[i], Names(entries)))
    && (forall i, j :: 0 <= i < j < |entries| ==> entries[i].name != entries[j].name)
  }

  /** What one entry adds to the list of errors. */
  method CheckEntry(e: Entry) returns (errs: nat)
    requires !Blank(e.name)
    ensures errs == 0 <==> EntryOk(e)
  {
    if !e.class_.Known? { return 1; }
    errs := 0;
    if |e.key| == 0 { errs := errs + 1; }
    match e.class_.follow {
      case AppendOnly => if e.cursor.None? { errs := errs + 1; }
      case Mutable => if e.cursor.None? { errs := errs + 1; }
      case OpenRow =>
        if e.cursor.None? { errs := errs + 1; }
        if e.state.None? { errs := errs + 1; } else if |e.state.value.terminal| == 0 { errs := errs + 1; }
      case FollowParent =>
        if e.parent.None? { errs := errs + 1; }
        if e.cursor.Some? { errs := errs + 1; }
      case Snapshot => if e.cursor.Some? { errs := errs + 1; }
    }
    if e.cursor.Some? {
      if Blank(e.cursor.value.column) { errs := errs + 1; }
      if e.cursor.value.kind.OtherKind? { errs := errs + 1; }
    }
    if e.timeColumn != "" && |e.timestamps| > 0 && e.timeColumn !in e.timestamps { errs := errs + 1; }
    if e.state.Some? && Blank(e.state.value.column) { errs := errs + 1; }
  }

  method CheckParent(e: Entry, seen: set<string>) returns (errs: nat)
    ensures errs == 0 <==> ParentOk(e, seen)
  {
    errs := 0;
    if e.parent.None? { return; }
    var p := e.parent.value;
    if p.table == e.name { return 1; }
    if p.table !in seen { errs := errs + 1; }
    if p.local == "" || p.remote == "" { errs := errs + 1; }
  }

  /** The first k entries are in order, and no two share a name. */
  predicate PrefixOk(entries: seq<Entry>, k: nat)
    requires k <= |entries|
  {
    k == 0 || (PrefixOk(entries, k - 1) && EntryOk(entries[k - 1]) && entries[k - 1].name !in Names(entries[..k - 1]))
  }

  lemma NamesSnoc(entries: seq<Entry>, k: nat)
    requires k < |entries|
    ensures Names(entries[..k + 1]) == Names(entries[..k]) + {entries[k].name}
  {
    var a, b := entries[..k], entries[..k + 1];
    forall n ensures n in Names(b) <==> n in Names(a) || n == entries[k].name {
      if n in Names(b) {
        var i :| 0 <= i < |b| && b[i].name == n;
        assert i == k || a[i] == b[i];
      }
      if n in Names(a) {
        var i :| 0 <= i < |a| && a[i].name == n;
        assert b[i] == a[i];
      }
      assert b[k] == entries[k];
    }
  }

  lemma {:induction false} PrefixOkIff(entries: seq<Entry>, k: nat)
    requires k <= |entries|
    ensures PrefixOk(entries, k) <==>
            (forall i :: 0 <= i < k ==> EntryOk(entries[i]))
            && (forall i, j :: 0 <= i < j < k ==> entries[i].name != entries[j].name)
  {
    hide EntryOk;
    if k > 0 {
      PrefixOkIff(entries, k - 1);
      var front, name := entries[..k - 1], entries[k - 1].name;
      assert forall i :: 0 <= i < k - 1 ==> front[i] == entries[i];
      assert name in Names(front) <==> exists i :: 0 <= i < k - 1 && entries[i].name == name by {
        if i :| 0 <= i < k - 1 && entries[i].name == name {
          assert front[i].name == name;
        }
      }
    }
  }

  method CheckEntries(entries: seq<Entry>) returns (errs: nat, seen: set<string>)
    ensures errs == 0 <==> PrefixOk(entries, |entries|)
    ensures errs == 0 ==> seen == Names(entries)
  {
    hide EntryOk, Blank;
    errs, seen := 0, {};
    for i := 0 to |entries|
      invariant errs == 0 <==> PrefixOk(entries, i)
      invariant errs == 0 ==> seen == Names(entries[..i])
    {
      NamesSnoc(entries, i);
      if Blank(entries[i].name) {
        BlankName(entries[i]);
        errs := errs + 1;
      } else {
        if entries[i].name in seen { errs := errs + 1; }
        seen := seen + {entries[i].name};
        var e := CheckEntry(entries[i]);
        errs := errs + e;
      }
    }
    assert entries[..|entries|] == entries;
  }

  /** The catalog is checked entry by entry, then link by link; no error means every
      obligation holds. */
  method Validate(version: int, compat: string, entries: seq<Entry>) returns (errs: nat)
    ensures errs == 0 <==> CatalogOk(version, compat, entries)
  {
    hide EntryOk, ParentOk, Blank, PrefixOk;
    var e, seen := CheckEntries(entries);
    PrefixOkIff(entries, |entries|);
    errs := e + (if version != 1 then 1 else 0) + (if Blank(compat) then 1 else 0) + (if |entries| == 0 then 1 else 0);
    ghost var head := errs;
    for i := 0 to |entries|
      invariant errs >= head
      invariant head == 0 ==> (errs == 0 <==> forall j :: 0 <= j < i ==> ParentOk(entries[j], Names(entries)))
    {
      var p := CheckParent(entries[i], seen);
      errs := errs + p;
    }
  }

  lemma BlankName(e: Entry)
    requires Blank(e.name)
    ensures !EntryOk(e)
  {
  }

  /** The table the replication model follows for a catalogued entry. */
  function TableOf(e: Entry, accepts: Replication.Row -> bool, movedSince: (int, Replication.Row) -> bool,
                   overlap: nat, batch: nat): Replication.Table
    requires e.class_.Known?
  {
    Replication.Table(e.class_.follow, accepts,
                      if e.state.Some? then e.state.value.terminal else [],
                      |e.key| == 1, movedSince,
                      if e.cursor.Some? && e.cursor.value.kind.Integer? then 0 else overlap, batch)
  }

  /** In a valid catalog the class alone says whether a table has a cursor, an open_row table
      has a state that can settle, and a parent is another catalogued table. */
  lemma ClassObligations(version: int, compat: string, entries: seq<Entry>, i: nat,
                         accepts: Replication.Row -> bool, movedSince: (int, Replication.Row) -> bool, overlap: nat,
                         batch: nat)
    requires CatalogOk(version, compat, entries) && i < |entries|
    ensures var e := entries[i]; var t := TableOf(e, accepts, movedSince, overlap, batch);
            && (Replication.HasCursor(t) <==> e.cursor.Some?)
            && (t.singleKey <==> |e.key| == 1)
            && t.overlap == (if e.cursor.Some? && e.cursor.value.kind == Integer then 0 else overlap)
            && (t.follow.OpenRow? ==> e.state.Some? && t.terminal == e.state.value.terminal && t.terminal != [])
            && (t.follow.FollowParent? ==>
                  exists j :: 0 <= j < |entries| && j != i && entries[j].name == e.parent.value.table)
  {
    hide Blank;
    var e := entries[i];
    assert EntryOk(e) && ParentOk(e, Names(entries));
    if e.class_.follow.FollowParent? {
      var j :| 0 <= j < |entries| && entries[j].name == e.parent.value.table;
      assert j != i;
    }
  }

  // ---------- one table's plan ----------

  /** A field to inject, as configured under its name. */
  datatype Injected = Injected(template: string, declared: Option<Enrich.PgType>)

  datatype Defaults = Defaults(
    exclude: seq<string>, filters: seq<Filter>, since: string, until: string, enabled: Option<bool>,
    extras: map<string, Injected>)

  datatype Settings = Settings(
    enabled: Option<bool>, includes: seq<string>, exclude: seq<string>, filters: seq<Filter>, ignoreGlobal: bool,
    extras: map<string, Injected>)

  /** `includes`, when not empty, is the projection; `excludes` is applied after it. */
  datatype Planned = Planned(
    entry: Entry, includes: seq<string>, excludes: set<string>, filters: seq<Filter>, extras: seq<Enrich.Extra>)

  /** An explicit table setting wins, then the global default; the default is on. */
  predicate Enabled(d: Defaults, s: Option<Settings>) {
    match s
    case Some(Settings(Some(on), _, _, _, _, _)) => on
    case _ => d.enabled.None? || d.enabled.value
  }

  method UnionColumns(global: seq<string>, table: seq<string>) returns (out: set<string>)
    ensures forall c :: c in out <==> c in global || c in table
  {
    out := {};
    for i := 0 to |global|
      invariant forall c :: c in out <==> c in global[..i]
    {
      out := out + {global[i]};
    }
    for i := 0 to |table|
      invariant forall c :: c in out <==> c in global || c in table[..i]
    {
      out := out + {table[i]};
    }
  }

  // ---------- order by name ----------

  predicate InOrder<T>(name: T -> string, xs: seq<T>) {
    forall i, j :: 0 <= i < j < |xs| ==> !Sql.TextLess(name(xs[j]), name(xs[i]))
  }

  /** Whatever lies between two texts in order splits their order. */
  lemma {:induction false} BetweenSplits(a: string, b: string, c: string)
    requires Sql.TextLess(a, c)
    ensures Sql.TextLess(a, b) || Sql.TextLess(b, c)
  {
    if a != "" && b != "" && a[0] == b[0] == c[0] {
      BetweenSplits(a[1..], b[1..], c[1..]);
    }
  }

  lemma {:induction false} NotBoth(a: string, b: string)
    requires Sql.TextLess(a, b)
    ensures !Sql.TextLess(b, a)
  {
    if a != "" && a[0] == b[0] {
      NotBoth(a[1..], b[1..]);
    }
  }

  function Place<T>(name: T -> string, x: T, xs: seq<T>): seq<T> {
    if xs == [] || !Sql.TextLess(name(xs[0]), name(x)) then [x] + xs else [xs[0]] + Place(name, x, xs[1..])
  }

  function SortByName<T>(name: T -> string, xs: seq<T>): seq<T> {
    if xs == [] then [] else Place(name, xs[0], SortByName(name, xs[1..]))
  }

  lemma PlaceFirst<T>(name: T -> string, x: T, xs: seq<T>)
    requires InOrder(name, xs) && xs != [] && !Sql.TextLess(name(xs[0]), name(x))
    ensures InOrder(name, [x] + xs)
  {
    forall i | 0 <= i < |xs| ensures !Sql.TextLess(name(xs[i]), name(x)) {
      if Sql.TextLess(name(xs[i]), name(x)) {
        BetweenSplits(name(xs[i]), name(xs[0]), name(x));
      }
    }
  }

  lemma {:induction false} PlaceHolds<T>(name: T -> string, x: T, xs: seq<T>)
    requires InOrder(name, xs)
    ensures InOrder(name, Place(name, x, xs)) && multiset(Place(name, x, xs)) == multiset(xs) + multiset{x}
  {
    hide Sql.TextLess;
    if xs != [] && Sql.TextLess(name(xs[0]), name(x)) {
      var head, rest := xs[0], xs[1..];
      assert xs == [head] + rest;
      assert forall i :: 0 <= i < |rest| ==> rest[i] == xs[i + 1];
      PlaceHolds(name, x, rest);
      NotBoth(name(head), name(x));
      var tail := Place(name, x, rest);
      forall i | 0 <= i < |tail| ensures !Sql.TextLess(name(tail[i]), name(head)) {
        assert tail[i] in multiset(tail);
        assert tail[i] == x || tail[i] in rest;
      }
    } else if xs != [] {
      PlaceFirst(name, x, xs);
    }
  }

  /** Sorting puts the names in order and keeps every member as often as it was there. */
  lemma {:induction false} SortByNameHolds<T>(name: T -> string, xs: seq<T>)
    ensures InOrder(name, SortByName(name, xs)) && multiset(SortByName(name, xs)) == multiset(xs)
  {
    if xs != [] {
      SortByNameHolds(name, xs[1..]);
      PlaceHolds(name, xs[0], SortByName(name, xs[1..]));
      assert xs == [xs[0]] + xs[1..];
    }
  }

  // ---------- the fields to inject ----------

  function FieldOf(n: string, x: Injected): Enrich.Extra {
    Enrich.Extra(n, x.template, x.declared)
  }

  /** A table's own setting comes before the default of that name. */
  predicate IsConfigured(global: map<string, Injected>, table: map<string, Injected>, x: Enrich.Extra) {
    && (x.name in table || x.name in global)
    && Injected(x.template, x.declared) == if x.name in table then table[x.name] else global[x.name]
  }

  /** One field a configured name, in the order of the names. */
  ghost predicate Merged(global: map<string, Injected>, table: map<string, Injected>, out: seq<Enrich.Extra>) {
    && InOrder((x: Enrich.Extra) => x.name, out)
    && |out| == |global.Keys + table.Keys|
    && (forall n :: n in global.Keys + table.Keys ==> exists i :: 0 <= i < |out| && out[i].name == n)
    && (forall i :: 0 <= i < |out| ==> IsConfigured(global, table, out[i]))
  }

  lemma SameMembers<T>(a: seq<T>, b: seq<T>)
    requires multiset(a) == multiset(b)
    ensures |a| == |b| && forall x :: x in a <==> x in b
  {
    assert |a| == |multiset(a)| && |b| == |multiset(b)|;
    forall x ensures x in a <==> x in b {
      assert x in a <==> x in multiset(a);
      assert x in b <==> x in multiset(b);
    }
  }

  method ListNames(names: set<string>) returns (out: seq<string>)
    ensures |out| == |names| && forall n :: n in out <==> n in names
  {
    out := [];
    var rest := names;
    while rest != {}
      invariant rest <= names && |out| + |rest| == |names|
      invariant forall n :: n in out <==> n in names - rest
    {
      var n :| n in rest;
      rest, out := rest - {n}, out + [n];
    }
  }

  method NamesInOrder(names: set<string>) returns (out: seq<string>)
    ensures InOrder((n: string) => n, out) && |out| == |names| && forall n :: n in out <==> n in names
  {
    hide InOrder, SortByName;
    var listed := ListNames(names);
    out := SortByName((n: string) => n, listed);
    SortByNameHolds((n: string) => n, listed);
    SameMembers(out, listed);
  }

  lemma MergedByName(global: map<string, Injected>, table: map<string, Injected>, names: seq<string>,
                     out: seq<Enrich.Extra>)
    requires InOrder((n: string) => n, names) && |names| == |global.Keys + table.Keys|
    requires forall n :: n in global.Keys + table.Keys ==> n in names
    requires |out| == |names|
    requires forall k :: 0 <= k < |out| ==> out[k].name == names[k] && IsConfigured(global, table, out[k])
    ensures Merged(global, table, out)
  {
    hide IsConfigured;
    assert InOrder((x: Enrich.Extra) => x.name, out) by {
      forall i, j | 0 <= i < j < |out| ensures !Sql.TextLess(out[j].name, out[i].name) {
        assert !Sql.TextLess(((n: string) => n)(names[j]), ((n: string) => n)(names[i]));
      }
    }
    hide InOrder;
    forall n | n in global.Keys + table.Keys ensures exists i :: 0 <= i < |out| && out[i].name == n {
      var i :| 0 <= i < |names| && names[i] == n;
      assert out[i].name == n;
    }
  }

  lemma MergedIsConfigured(global: map<string, Injected>, table: map<string, Injected>, n: string)
    requires n in global.Keys + table.Keys
    ensures var x := (global + table)[n]; IsConfigured(global, table, FieldOf(n, x))
  {
  }

  method ListFields(names: seq<string>, merged: map<string, Injected>) returns (out: seq<Enrich.Extra>)
    requires forall n :: n in names ==> n in merged
    ensures |out| == |names| && forall k :: 0 <= k < |out| ==> out[k] == FieldOf(names[k], merged[names[k]])
  {
    out := [];
    for i := 0 to |names|
      invariant |out| == i && forall k :: 0 <= k < i ==> out[k] == FieldOf(names[k], merged[names[k]])
    {
      out := out + [FieldOf(names[i], merged[names[i]])];
    }
  }

  method MergeExtras(global: map<string, Injected>, table: map<string, Injected>) returns (out: seq<Enrich.Extra>)
    ensures Merged(global, table, out)
  {
    hide InOrder, Merged, IsConfigured;
    var merged := global + table;
    var names := NamesInOrder(merged.Keys);
    out := ListFields(names, merged);
    assert merged.Keys == global.Keys + table.Keys;
    forall k | 0 <= k < |out| ensures out[k].name == names[k] && IsConfigured(global, table, out[k]) {
      MergedIsConfigured(global, table, names[k]);
    }
    MergedByName(global, table, names, out);
  }

  // ---------- filters ----------

  function WindowFilters(e: Entry, d: Defaults): seq<Filter> {
    if e.timeColumn == "" then []
    else (if d.since != "" then [Filter(e.timeColumn, OpGte, One(Sql.Text(d.since)), true)] else [])
         + (if d.until != "" then [Filter(e.timeColumn, OpLt, One(Sql.Text(d.until)), true)] else [])
  }

  function AndFilters(window: seq<Filter>, global: seq<Filter>, table: seq<Filter>, ignoreGlobal: bool): seq<Filter> {
    if ignoreGlobal then table else window + global + table
  }

  predicate AllValid(fs: seq<Filter>) {
    forall i :: 0 <= i < |fs| ==> Valid(fs[i])
  }

  predicate AllAccept(g: Sql.Engine, fs: seq<Filter>, row: Grammar.Record)
    requires AllValid(fs)
  {
    forall i :: 0 <= i < |fs| ==> Accepts(g, fs[i], row)
  }

  /** Filters only ever narrow: a row gets through when it passes the table's own filters and,
      unless the table opts out, every global one; a row with no time passes any window. */
  lemma FiltersNarrow(g: Sql.Engine, e: Entry, d: Defaults, s: Settings, row: Grammar.Record)
    requires AllValid(WindowFilters(e, d)) && AllValid(d.filters) && AllValid(s.filters)
    ensures AllValid(AndFilters(WindowFilters(e, d), d.filters, s.filters, s.ignoreGlobal))
    ensures AllAccept(g, AndFilters(WindowFilters(e, d), d.filters, s.filters, s.ignoreGlobal), row) <==>
            AllAccept(g, s.filters, row)
            && (s.ignoreGlobal || (AllAccept(g, WindowFilters(e, d), row) && AllAccept(g, d.filters, row)))
    ensures Grammar.Lookup(row, e.timeColumn).Null? ==> AllAccept(g, WindowFilters(e, d), row)
  {
    hide Accepts, Valid;
    var w := WindowFilters(e, d);
    var all := w + d.filters + s.filters;
    assert forall i :: 0 <= i < |w| ==> all[i] == w[i];
    assert forall i :: 0 <= i < |d.filters| ==> all[|w| + i] == d.filters[i];
    assert forall i :: 0 <= i < |s.filters| ==> all[|w| + |d.filters| + i] == s.filters[i];
    WindowAdmitsNull(g, e, d, row);
  }

  lemma WindowAdmitsNull(g: Sql.Engine, e: Entry, d: Defaults, row: Grammar.Record)
    requires AllValid(WindowFilters(e, d))
    ensures Grammar.Lookup(row, e.timeColumn).Null? ==> AllAccept(g, WindowFilters(e, d), row)
  {
  }

  /** The window is half open, from `since` up to but not including `until`, in text order. */
  lemma WindowIsHalfOpen(g: Sql.Engine, e: Entry, d: Defaults, row: Grammar.Record)
    requires AllValid(WindowFilters(e, d)) && e.timeColumn != "" && Grammar.Lookup(row, e.timeColumn).Text?
    ensures var v := Grammar.Lookup(row, e.timeColumn).s;
            AllAccept(g, WindowFilters(e, d), row) <==>
              && (d.since != "" ==> Sql.TextLess(d.since, v) || v == d.since)
              && (d.until != "" ==> Sql.TextLess(v, d.until))
  {
    hide Valid;
    var w, n := WindowFilters(e, d), if d.since != "" then 1 else 0;
    assert d.since != "" ==> w[0] == Filter(e.timeColumn, OpGte, One(Sql.Text(d.since)), true);
    assert d.until != "" ==> |w| == n + 1 && w[n] == Filter(e.timeColumn, OpLt, One(Sql.Text(d.until)), true);
  }

  // ---------- projection ----------

  function Columns(p: Planned, live: seq<string>): seq<string> {
    if p.includes != [] then Keep(p.includes, set c | c in live && c !in p.excludes)
    else Keep(live, set c | c in live && c !in p.excludes)
  }

  function Keep(cs: seq<string>, wanted: set<string>): seq<string> {
    if cs == [] then []
    else Keep(cs[..|cs| - 1], wanted) + (if cs[|cs| - 1] in wanted then [cs[|cs| - 1]] else [])
  }

  lemma {:induction false} KeepHolds(cs: seq<string>, wanted: set<string>, c: string)
    ensures c in Keep(cs, wanted) <==> c in cs && c in wanted
  {
    if cs != [] {
      KeepHolds(cs[..|cs| - 1], wanted, c);
      assert cs == cs[..|cs| - 1] + [cs[|cs| - 1]];
    }
  }

  /** The columns read: those listed, or all of them, that the source has and nothing excludes. */
  method ProjectColumns(p: Planned, live: seq<string>) returns (out: seq<string>)
    ensures out == Columns(p, live)
  {
    out := [];
    var from := if |p.includes| > 0 then p.includes else live;
    ghost var wanted := set c | c in live && c !in p.excludes;
    for i := 0 to |from|
      invariant out == Keep(from[..i], wanted)
    {
      assert from[..i + 1][..i] == from[..i];
      if from[i] in live && from[i] !in p.excludes { out := out + [from[i]]; }
    }
    assert from[..|from|] == from;
  }

  /** What is kept stays in the order of the list it comes from. */
  lemma {:induction false} KeepAll(cs: seq<string>, wanted: set<string>)
    requires forall i :: 0 <= i < |cs| ==> cs[i] in wanted
    ensures Keep(cs, wanted) == cs
  {
    if cs != [] {
      var front := cs[..|cs| - 1];
      assert cs == front + [cs[|cs| - 1]];
      KeepAll(front, wanted);
    }
  }

  /** A projection is read in its own order, and without one the table in the source's. */
  lemma ColumnsInOrder(p: Planned, live: seq<string>)
    requires forall c :: c in live ==> c !in p.excludes
    ensures p.includes == [] ==> Columns(p, live) == live
    ensures p.includes != [] && (forall c :: c in p.includes ==> c in live) ==> Columns(p, live) == p.includes
  {
    var wanted := set c | c in live && c !in p.excludes;
    if p.includes == [] {
      KeepAll(live, wanted);
    } else if forall c :: c in p.includes ==> c in live {
      assert forall i :: 0 <= i < |p.includes| ==> p.includes[i] in p.includes;
      KeepAll(p.includes, wanted);
    }
  }

  predicate Keeps(p: Planned, c: string) {
    c !in p.excludes && (p.includes == [] || c in p.includes)
  }

  lemma ColumnsHold(p: Planned, live: seq<string>, c: string)
    ensures c in Columns(p, live) <==> c in live && Keeps(p, c)
  {
    var wanted := set c | c in live && c !in p.excludes;
    KeepHolds(p.includes, wanted, c);
    KeepHolds(live, wanted, c);
  }

  /** What the table must be able to read of every row. */
  predicate Required(e: Entry, c: string) {
    c in e.key || (e.cursor.Some? && c == e.cursor.value.column)
  }

  lemma RequiredIff(p: Planned)
    ensures (forall c :: Required(p.entry, c) ==> Keeps(p, c)) <==>
            (forall k :: 0 <= k < |p.entry.key| ==> Keeps(p, p.entry.key[k]))
            && (p.entry.cursor.Some? ==> Keeps(p, p.entry.cursor.value.column))
  {
    hide Keeps;
    if forall c :: Required(p.entry, c) ==> Keeps(p, c) {
      forall k | 0 <= k < |p.entry.key| ensures Keeps(p, p.entry.key[k]) {
        assert Required(p.entry, p.entry.key[k]);
      }
      if p.entry.cursor.Some? {
        assert Required(p.entry, p.entry.cursor.value.column);
      }
    }
  }

  method CountDropped(p: Planned) returns (errs: nat)
    ensures errs == 0 <==> forall c :: Required(p.entry, c) ==> Keeps(p, c)
  {
    errs := 0;
    for i := 0 to |p.entry.key|
      invariant errs == 0 <==> forall k :: 0 <= k < i ==> Keeps(p, p.entry.key[k])
    {
      var k := p.entry.key[i];
      if k in p.excludes { errs := errs + 1; }
      if |p.includes| > 0 && k !in p.includes { errs := errs + 1; }
    }
    ghost var keysKept := errs == 0;
    if p.entry.cursor.Some? {
      var c := p.entry.cursor.value.column;
      if c in p.excludes { errs := errs + 1; }
      if |p.includes| > 0 && c !in p.includes { errs := errs + 1; }
      assert errs == 0 <==> keysKept && Keeps(p, c);
    }
    RequiredIff(p);
  }

  ghost predicate ReadsRequired(p: Planned) {
    forall c :: Required(p.entry, c) ==> Keeps(p, c)
  }

  /** How an entry, the defaults and its settings combine. */
  ghost predicate Combines(p: Planned, e: Entry, d: Defaults, s: Settings) {
    && p.entry == e && p.includes == s.includes && Merged(d.extras, s.extras, p.extras)
    && (forall c :: c in p.excludes <==> c in d.exclude || c in s.exclude)
    && p.filters == AndFilters(WindowFilters(e, d), d.filters, s.filters, s.ignoreGlobal)
  }

  /** A table resolved from its settings and the defaults; no error means that its key and
      cursor are read whenever the source has them. */
  method ResolveTable(e: Entry, d: Defaults, s: Settings) returns (p: Planned, errs: nat)
    ensures Combines(p, e, d, s)
    ensures errs == 0 <==> ReadsRequired(p)
  {
    var excludes := UnionColumns(d.exclude, s.exclude);
    var extras := MergeExtras(d.extras, s.extras);
    var filters := AndFilters(WindowFilters(e, d), d.filters, s.filters, s.ignoreGlobal);
    p := Planned(e, s.includes, excludes, filters, extras);
    errs := CountDropped(p);
  }

  // ---------- the whole plan ----------

  const NO_SETTINGS := Settings(None, [], [], [], false, map[])

  function SettingsOf(configured: map<string, Settings>, name: string): Option<Settings> {
    if name in configured then Some(configured[name]) else None
  }

  function SettingsOr(configured: map<string, Settings>, name: string): Settings {
    if name in configured then configured[name] else NO_SETTINGS
  }

  function EnabledEntries(entries: seq<Entry>, d: Defaults, configured: map<string, Settings>): seq<Entry> {
    if entries == [] then []
    else
      var last := entries[|entries| - 1];
      EnabledEntries(entries[..|entries| - 1], d, configured)
      + (if Enabled(d, SettingsOf(configured, last.name)) then [last] else [])
  }

  /** A catalogued table is planned when its own setting says so, or, when it has none, unless
      the defaults say otherwise. */
  lemma {:induction false} PlannedIff(entries: seq<Entry>, d: Defaults, configured: map<string, Settings>, e: Entry)
    ensures e in EnabledEntries(entries, d, configured) <==>
              && e in entries
              && if e.name in configured && configured[e.name].enabled.Some? then configured[e.name].enabled.value
                 else d.enabled != Some(false)
  {
    if entries != [] {
      var front, last := entries[..|entries| - 1], entries[|entries| - 1];
      assert entries == front + [last];
      PlannedIff(front, d, configured, e);
    }
  }

  /** One table for every enabled entry, in catalog order. */
  ghost predicate Resolved(tables: seq<Planned>, entries: seq<Entry>, d: Defaults, configured: map<string, Settings>) {
    && |tables| == |EnabledEntries(entries, d, configured)|
    && forall i :: 0 <= i < |tables| ==>
         var e := EnabledEntries(entries, d, configured)[i];
         Combines(tables[i], e, d, SettingsOr(configured, e.name))
  }

  lemma ResolvedSnoc(tables: seq<Planned>, p: Planned, front: seq<Entry>, e: Entry, d: Defaults,
                     configured: map<string, Settings>)
    requires Resolved(tables, front, d, configured)
    requires Enabled(d, SettingsOf(configured, e.name)) ==> Combines(p, e, d, SettingsOr(configured, e.name))
    ensures if Enabled(d, SettingsOf(configured, e.name)) then Resolved(tables + [p], front + [e], d, configured)
            else Resolved(tables, front + [e], d, configured)
  {
    hide Enabled, Combines, SettingsOr, SettingsOf;
    assert (front + [e])[..|front|] == front;
  }

  /** Every enabled table is planned once, in the order of the names, its filters, exclusions
      and injected fields combined from the defaults and its settings; a configured table the
      catalog does not know stops the plan. No error means that every planned table reads its
      key and cursor. */
  method Resolve(entries: seq<Entry>, d: Defaults, configured: map<string, Settings>)
      returns (plan: Option<seq<Planned>>, errs: nat)
    ensures plan.None? <==> exists n :: n in configured && n !in Names(entries)
    ensures plan.Some? ==> InOrder((p: Planned) => p.entry.name, plan.value)
    ensures plan.Some? ==> exists tables ::
              Resolved(tables, entries, d, configured) && multiset(tables) == multiset(plan.value)
    ensures errs == 0 <==> plan.Some? && plan.value != [] && forall p :: p in plan.value ==> ReadsRequired(p)
  {
    hide ReadsRequired, Enabled, Combines, SettingsOr, SettingsOf, Resolved, InOrder;
    var unknown := set n | n in configured && n !in Names(entries);
    if unknown != {} {
      return None, |unknown|;
    }
    NoneUnknown(configured, Names(entries), unknown);
    var tables: seq<Planned> := [];
    errs := 0;
    NothingResolved(d, configured);
    for i := 0 to |entries|
      invariant Resolved(tables, entries[..i], d, configured)
      invariant errs == 0 <==> forall p :: p in tables ==> ReadsRequired(p)
    {
      assert entries[..i + 1] == entries[..i] + [entries[i]];
      var e := entries[i];
      if Enabled(d, SettingsOf(configured, e.name)) {
        var p, n := ResolveTable(e, d, SettingsOr(configured, e.name));
        ResolvedSnoc(tables, p, entries[..i], e, d, configured);
        tables, errs := tables + [p], errs + n;
      } else {
        ResolvedSnoc(tables, ID_ONLY, entries[..i], e, d, configured);
      }
    }
    assert entries[..|entries|] == entries;
    if |tables| == 0 { errs := errs + 1; }
    var byName := (p: Planned) => p.entry.name;
    SortByNameHolds(byName, tables);
    SameMembers(SortByName(byName, tables), tables);
    plan := Some(SortByName(byName, tables));
  }

  lemma NothingResolved(d: Defaults, configured: map<string, Settings>)
    ensures Resolved([], [], d, configured)
  {
  }

  lemma NoneUnknown(configured: map<string, Settings>, names: set<string>, unknown: set<string>)
    requires unknown == (set n | n in configured && n !in names) && unknown == {}
    ensures forall n :: n in configured ==> n in names
  {
    forall n | n in configured ensures n in names {
      assert n !in unknown;
    }
  }

  // ---------- the check against a live schema ----------

  /** What the check demands of one extra field. */
  predicate ExtraOk(p: Planned, live: seq<string>, x: Enrich.Extra) {
    && x.name !in live
    && forall c :: c in Templates.RowRefs(Templates.Bodies(x.template)) ==> c in live && c !in p.excludes
  }

  predicate Checked(p: Planned, live: seq<string>) {
    && (forall i :: 0 <= i < |p.filters| ==> p.filters[i].column in live)
    && (forall c :: c in p.includes ==> c in live)
    && (forall i :: 0 <= i < |p.extras| ==> ExtraOk(p, live, p.extras[i]))
  }

  method CheckExtra(p: Planned, live: seq<string>, x: Enrich.Extra) returns (errs: nat)
    ensures errs == 0 <==> ExtraOk(p, live, x)
  {
    hide Templates.RowRefs, Templates.Bodies;
    errs := if x.name in live then 1 else 0;
    var refs := Templates.References(x.template);
    ghost var head := errs;
    for i := 0 to |refs|
      invariant errs >= head
      invariant errs == head <==> forall k :: 0 <= k < i ==> refs[k] in live && refs[k] !in p.excludes
    {
      if refs[i] !in live { errs := errs + 1; }
      if refs[i] in p.excludes { errs := errs + 1; }
    }
  }

  method Check(p: Planned, live: seq<string>) returns (errs: nat)
    ensures errs == 0 <==> Checked(p, live)
  {
    hide ExtraOk;
    errs := 0;
    for i := 0 to |p.filters|
      invariant errs == 0 <==> forall k :: 0 <= k < i ==> p.filters[k].column in live
    {
      if p.filters[i].column !in live { errs := errs + 1; }
    }
    ghost var a := errs;
    for i := 0 to |p.includes|
      invariant errs >= a && (errs == a <==> forall k :: 0 <= k < i ==> p.includes[k] in live)
    {
      if p.includes[i] !in live { errs := errs + 1; }
    }
    ghost var b := errs;
    for i := 0 to |p.extras|
      invariant errs >= b && (errs == b <==> forall k :: 0 <= k < i ==> ExtraOk(p, live, p.extras[k]))
    {
      var n := CheckExtra(p, live, p.extras[i]);
      errs := errs + n;
    }
  }

  /** The check is meant to rule out templates that read a column the query does not; it does
      so just when there is no projection, or the projection lists every column referenced. A
      validated extra that slips through fails on every row. */
  lemma CheckedExtrasEvaluateIff(p: Planned, live: seq<string>, x: Enrich.Extra, ctx: Enrich.Context,
                                 values: seq<string>)
    requires Checked(p, live) && x in p.extras && Templates.Validated(x.template)
    requires |values| == |Columns(p, live)|
    ensures Enrich.Direct(x, ctx, Enrich.Record(Columns(p, live), values)).Ok? <==>
            p.includes == [] || forall c :: c in Templates.RowRefs(Templates.Bodies(x.template)) ==> c in p.includes
  {
    hide Templates.RowRefs, Templates.Bodies, Templates.Validated, Enrich.Direct;
    var refs := Templates.RowRefs(Templates.Bodies(x.template));
    Enrich.ValidatedFailsIff(x, ctx, Enrich.Record(Columns(p, live), values));
    forall c | c in refs ensures c in Columns(p, live) <==> p.includes == [] || c in p.includes {
      ColumnsHold(p, live, c);
    }
  }

  const ID_ONLY := Planned(
    Entry("runs", Known(Replication.Snapshot), ["id"], None, None, None, "", []), ["id"], {}, [],
    [Enrich.Extra("label", Templates.Joined("", "row.name", ""), None)])

  lemma IdOnlyIsChecked()
    ensures Checked(ID_ONLY, ["id", "name"])
  {
    hide Templates.RowRefs, Templates.Joined, Templates.Bodies;
    NameIsRead();
    assert "name" in ["id", "name"];
  }

  /** A projection that leaves out the column an extra reads: the check passes, and no row can
      be written. */
  lemma CheckedExtraFails(ctx: Enrich.Context, values: seq<string>)
    requires |values| == |Columns(ID_ONLY, ["id", "name"])|
    ensures Checked(ID_ONLY, ["id", "name"]) && Templates.Validated(ID_ONLY.extras[0].template)
    ensures Enrich.Direct(ID_ONLY.extras[0], ctx, Enrich.Record(Columns(ID_ONLY, ["id", "name"]), values)).Err?
  {
    hide Templates.RowRefs, Templates.Joined, Templates.Bodies, Enrich.Direct, Columns;
    var x := ID_ONLY.extras[0];
    NameIsRead();
    IdOnlyIsChecked();
    hide Checked;
    CheckedExtrasEvaluateIff(ID_ONLY, ["id", "name"], x, ctx, values);
    assert "name" !in ID_ONLY.includes;
  }

  lemma NameIsRead()
    ensures var template := Templates.Joined("", "row.name", "");
            Templates.RowRefs(Templates.Bodies(template)) == ["name"] && Templates.Validated(template)
  {
    hide Templates.Joined;
    RowNameIsATerm();
    Templates.LeftmostIs("", "row.name", "");
    assert Templates.Leftmost("").None?;
    var template := Templates.Joined("", "row.name", "");
    assert Templates.Bodies(template) == ["row.name"];
    assert ["row.name"][..0] == [];
  }

  lemma RowNameIsATerm()
    ensures Templates.TermOf("row.name") == Templates.Column("name") && ValidIdent("name") && '}' !in "row.name"
    ensures Templates.FirstOpen("") == 0
  {
  }
}
