/** The server's authoritative world: a seeded row-major scatter of resources
    over a MAP_SIZE x MAP_SIZE grid that skips the spawn square and the house,
    kept as a list mirrored by a spatial index keyed on (x, y). */
module ServerWorld {
  import opened Common

  const MAP_SIZE: nat := 100

  // Protected spawn square, inclusive on both ends.
  const SAFE_ZONE_MIN_X: int := 0
  const SAFE_ZONE_MAX_X: int := 12
  const SAFE_ZONE_MIN_Y: int := 0
  const SAFE_ZONE_MAX_Y: int := 12

  // House rectangle, half-open.
  const HOUSE_X: int := 15
  const HOUSE_Y: int := 15
  const HOUSE_W: int := 6
  const HOUSE_H: int := 6

  /** One line of the generation table: the asset, its object type and its chance. */
  datatype Rule = Rule(asset: string, kind: string, chance: real)

  /** Exclusive rules; their order is their priority. */
  const GENERATION_RULES: seq<Rule> := [
    Rule("tree", "obstacle", 0.10),
    Rule("rock", "obstacle", 0.05),
    Rule("cotton_bush", "obstacle", 0.04),
    Rule("clay_node", "obstacle", 0.03),
    Rule("apple_tree", "obstacle", 0.02)
  ]

  /** A world resource record {id, asset, type, x, y}. */
  datatype Resource = Resource(id: string, asset: string, kind: string, x: int, y: int)

  function Pos(r: Resource): (int, int)
  {
    (r.x, r.y)
  }

  /** `_is_in_safe_zone`: the spawn square, both edges included. */
  function InSafeZone(x: int, y: int): (inZone: bool)
    ensures inZone ==> 0 <= x < MAP_SIZE && 0 <= y < MAP_SIZE
  {
    SAFE_ZONE_MIN_X <= x <= SAFE_ZONE_MAX_X && SAFE_ZONE_MIN_Y <= y <= SAFE_ZONE_MAX_Y
  }

  /** `_is_in_house`: the house footprint, far edges excluded; it lies inside
      the map and does not meet the spawn square. */
  function InHouse(x: int, y: int): (inHouse: bool)
    ensures inHouse ==> 0 <= x < MAP_SIZE && 0 <= y < MAP_SIZE && !InSafeZone(x, y)
  {
    HOUSE_X <= x < HOUSE_X + HOUSE_W && HOUSE_Y <= y < HOUSE_Y + HOUSE_H
  }

  /** The spawn square includes both of its edges; the house excludes its far edges. */
  lemma ZoneEdges()
    ensures InSafeZone(0, 0) && InSafeZone(12, 12) && !InSafeZone(13, 0) && !InSafeZone(0, 13)
    ensures InHouse(15, 15) && InHouse(20, 20) && !InHouse(21, 15) && !InHouse(15, 21)
    ensures !InSafeZone(-1, 0) && !InHouse(14, 15)
  {
  }

  /** The identifier given to a generated resource: "{asset}_{x}_{y}". */
  function GeneratedId(asset: string, x: int, y: int): string
  {
    asset + "_" + IntToDecimal(x) + "_" + IntToDecimal(y)
  }

  /** The cascade over the rules from rule i on, `acc` being the running total
      of the chances before it: the first rule whose running total exceeds the roll. */
  function PickFrom(i: nat, roll: real, acc: real): (r: Option<Rule>)
    requires i <= |GENERATION_RULES|
    ensures r.Some? ==> r.value in GENERATION_RULES[i..]
    decreases |GENERATION_RULES| - i
  {
    if i == |GENERATION_RULES| then None
    else if roll < acc + GENERATION_RULES[i].chance then Some(GENERATION_RULES[i])
    else PickFrom(i + 1, roll, acc + GENERATION_RULES[i].chance)
  }

  /** The rule chosen for one roll of the generator. */
  function RuleFor(roll: real): (r: Option<Rule>)
    ensures r.Some? ==> r.value in GENERATION_RULES
  {
    assert GENERATION_RULES[0..] == GENERATION_RULES;
    PickFrom(0, roll, 0.0)
  }

  /** Each asset owns one band of the unit interval, in table order, and a roll of
      0.24 or more places nothing. */
  lemma RuleBands(roll: real)
    ensures roll < 0.10 ==> RuleFor(roll) == Some(GENERATION_RULES[0])
    ensures 0.10 <= roll < 0.15 ==> RuleFor(roll) == Some(GENERATION_RULES[1])
    ensures 0.15 <= roll < 0.19 ==> RuleFor(roll) == Some(GENERATION_RULES[2])
    ensures 0.19 <= roll < 0.22 ==> RuleFor(roll) == Some(GENERATION_RULES[3])
    ensures 0.22 <= roll < 0.24 ==> RuleFor(roll) == Some(GENERATION_RULES[4])
    ensures 0.24 <= roll <==> RuleFor(roll) == None
  {
  }

  /** What generation puts at one cell, given the rule its roll picked. */
  function CellResource(x: int, y: int, picked: Option<Rule>): Option<Resource>
  {
    if InSafeZone(x, y) || InHouse(x, y) || picked.None? then None
    else Some(Resource(GeneratedId(picked.value.asset, x, y), picked.value.asset, picked.value.kind, x, y))
  }

  function OptionToSeq(o: Option<Resource>): seq<Resource>
  {
    if o.Some? then [o.value] else []
  }

  /** The rule every cell's roll picks, for the roll oracle `roll`. */
  function Choice(roll: (int, int) -> real): (int, int) -> Option<Rule>
  {
    (x: int, y: int) => RuleFor(roll(x, y))
  }

  /** Row-major order on cells: y first, then x. */
  predicate Before(a: Resource, b: Resource)
  {
    a.y < b.y || (a.y == b.y && a.x < b.x)
  }

  /** Strictly row-major: in particular no two resources share a cell. */
  predicate RowMajor(s: seq<Resource>)
  {
    forall i, j :: 0 <= i < j < |s| ==> Before(s[i], s[j])
  }

  /** The set of cells a list of resources occupies. */
  function Cells(s: seq<Resource>): set<(int, int)>
  {
    set r | r in s :: Pos(r)
  }

  lemma CellsAppend(s: seq<Resource>, t: seq<Resource>)
    ensures Cells(s + t) == Cells(s) + Cells(t)
  {
    assert forall q :: q in s + t <==> q in s || q in t;
  }

  lemma CellsOne(r: Resource)
    ensures Cells([r]) == {Pos(r)}
  {
    assert r in [r];
  }

  /** The concatenation of a list of lists, in order. */
  function Concat(ss: seq<seq<Resource>>): seq<Resource>
  {
    if ss == [] then [] else Concat(ss[..|ss| - 1]) + ss[|ss| - 1]
  }

  lemma ConcatSnoc(ss: seq<seq<Resource>>, k: nat)
    requires k < |ss|
    ensures Concat(ss[..k + 1]) == Concat(ss[..k]) + ss[k]
  {
    assert ss[..k + 1][..k] == ss[..k];
  }

  /** An element of the concatenation is an element of one of the parts. */
  lemma {:induction false} ConcatMember(ss: seq<seq<Resource>>, r: Resource)
    ensures r in Concat(ss) <==> exists i :: 0 <= i < |ss| && r in ss[i]
  {
    if ss != [] {
      var init := ss[..|ss| - 1];
      ConcatMember(init, r);
      if r in Concat(init) {
        var i :| 0 <= i < |init| && r in init[i];
        assert r in ss[i];
      }
      if exists i :: 0 <= i < |ss| && r in ss[i] {
        var i :| 0 <= i < |ss| && r in ss[i];
        if i < |ss| - 1 {
          assert r in init[i];
        }
      }
    }
  }

  /** An element of the concatenation of the first k parts is an element of one of them. */
  lemma PrefixMember(ss: seq<seq<Resource>>, k: nat, r: Resource)
    requires k <= |ss| && r in Concat(ss[..k])
    ensures exists i :: 0 <= i < k && r in ss[i]
  {
    ConcatMember(ss[..k], r);
    var i :| 0 <= i < k && r in ss[..k][i];
  }

  /** The parts are each row-major, and every element of a part precedes every
      element of a later part. */
  ghost predicate Ordered(ss: seq<seq<Resource>>)
  {
    && (forall i :: 0 <= i < |ss| ==> RowMajor(ss[i]))
    && (forall i, j, a, b :: 0 <= i < j < |ss| && a in ss[i] && b in ss[j] ==> Before(a, b))
  }

  lemma {:induction false} ConcatRowMajor(ss: seq<seq<Resource>>)
    requires Ordered(ss)
    ensures RowMajor(Concat(ss))
  {
    if ss != [] {
      var n := |ss| - 1;
      var init := ss[..n];
      assert Ordered(init) by {
        assert forall i :: 0 <= i < n ==> init[i] == ss[i];
      }
      ConcatRowMajor(init);
      forall a, b | a in Concat(init) && b in ss[n] ensures Before(a, b) {
        PrefixMember(ss, n, a);
      }
      RowMajorJoin(Concat(init), ss[n]);
    }
  }

  /** What visiting the columns of row y contributes, column by column: at most
      one resource per cell, the one its roll picks. */
  function Columns(y: int, choice: (int, int) -> Option<Rule>): seq<seq<Resource>>
  {
    seq(MAP_SIZE, x => OptionToSeq(CellResource(x, y, choice(x, y))))
  }

  /** What generation appends while it visits row y. */
  function Row(y: int, choice: (int, int) -> Option<Rule>): seq<Resource>
  {
    Concat(Columns(y, choice))
  }

  /** What each row contributes, row by row. */
  function Rows(choice: (int, int) -> Option<Rule>): seq<seq<Resource>>
  {
    seq(MAP_SIZE, y => Row(y, choice))
  }

  /** The whole generated world, for the seeded roll oracle `roll`. */
  function World(roll: (int, int) -> real): seq<Resource>
  {
    Concat(Rows(Choice(roll)))
  }

  /** On the map, outside both protected zones, named "{asset}_{x}_{y}", with
      the asset and type of one line of the table. */
  ghost predicate WellPlaced(r: Resource)
  {
    && 0 <= r.x < MAP_SIZE && 0 <= r.y < MAP_SIZE
    && !InSafeZone(r.x, r.y) && !InHouse(r.x, r.y)
    && r.id == GeneratedId(r.asset, r.x, r.y)
    && exists rule :: rule in GENERATION_RULES && rule.asset == r.asset && rule.kind == r.kind
  }

  ghost predicate AllWellPlaced(s: seq<Resource>)
  {
    forall r :: r in s ==> WellPlaced(r)
  }

  lemma AllWellPlacedAppend(s: seq<Resource>, t: seq<Resource>)
    requires AllWellPlaced(s) && AllWellPlaced(t)
    ensures AllWellPlaced(s + t)
  {
  }

  lemma CellResourceWellPlaced(x: nat, y: nat, picked: Option<Rule>)
    requires x < MAP_SIZE && y < MAP_SIZE
    requires picked.Some? ==> picked.value in GENERATION_RULES
    ensures AllWellPlaced(OptionToSeq(CellResource(x, y, picked)))
  {
    if CellResource(x, y, picked).Some? {
      var rule := picked.value;
      var r := CellResource(x, y, picked).value;
      assert rule in GENERATION_RULES && rule.asset == r.asset && rule.kind == r.kind;
      assert WellPlaced(r);
    }
  }

  lemma RowMajorJoin(s: seq<Resource>, t: seq<Resource>)
    requires RowMajor(s) && RowMajor(t)
    requires forall a, b :: a in s && b in t ==> Before(a, b)
    ensures RowMajor(s + t)
  {
    forall i, j | 0 <= i < j < |s + t| ensures Before((s + t)[i], (s + t)[j]) {
      if j >= |s| && i < |s| {
        assert (s + t)[i] in s && (s + t)[j] in t;
      } else if i >= |s| {
        assert (s + t)[i] == t[i - |s|] && (s + t)[j] == t[j - |s|];
      }
    }
  }

  lemma ColumnAt(y: int, choice: (int, int) -> Option<Rule>, x: nat, r: Resource)
    requires x < MAP_SIZE && r in Columns(y, choice)[x]
    ensures CellResource(x, y, choice(x, y)) == Some(r) && Pos(r) == (x, y)
  {
  }

  /** Row y holds exactly the resources its cells' rolls pick. */
  lemma RowMember(y: int, choice: (int, int) -> Option<Rule>, r: Resource)
    ensures r in Row(y, choice) <==> 0 <= r.x < MAP_SIZE && r.y == y && CellResource(r.x, y, choice(r.x, y)) == Some(r)
  {
    var cols := Columns(y, choice);
    ConcatMember(cols, r);
    if r in Row(y, choice) {
      var i :| 0 <= i < |cols| && r in cols[i];
      ColumnAt(y, choice, i, r);
    }
    if 0 <= r.x < MAP_SIZE && r.y == y && CellResource(r.x, y, choice(r.x, y)) == Some(r) {
      assert r in cols[r.x];
    }
  }

  /** The generated world holds exactly, for every cell of the map, the resource
      its roll picks, if any. */
  lemma WorldMember(roll: (int, int) -> real, r: Resource)
    ensures r in World(roll) <==>
      0 <= r.x < MAP_SIZE && 0 <= r.y < MAP_SIZE && CellResource(r.x, r.y, RuleFor(roll(r.x, r.y))) == Some(r)
  {
    var rows := Rows(Choice(roll));
    ConcatMember(rows, r);
    RowMember(r.y, Choice(roll), r);
    if r in World(roll) {
      var j :| 0 <= j < |rows| && r in rows[j];
      RowMember(j, Choice(roll), r);
    }
    if 0 <= r.y < MAP_SIZE && r in Row(r.y, Choice(roll)) {
      assert r in rows[r.y];
    }
  }

  /** A cell of the map holds a generated resource exactly when it is not
      protected and its roll picks a rule. */
  lemma WorldAt(roll: (int, int) -> real, x: nat, y: nat)
    requires x < MAP_SIZE && y < MAP_SIZE
    ensures (x, y) in Cells(World(roll)) <==> CellResource(x, y, RuleFor(roll(x, y))).Some?
  {
    var c := CellResource(x, y, RuleFor(roll(x, y)));
    if (x, y) in Cells(World(roll)) {
      var r :| r in World(roll) && Pos(r) == (x, y);
      WorldMember(roll, r);
    }
    if c.Some? {
      WorldMember(roll, c.value);
    }
  }

  lemma RowOrdered(y: int, choice: (int, int) -> Option<Rule>)
    ensures RowMajor(Row(y, choice))
  {
    var cols := Columns(y, choice);
    forall i | 0 <= i < |cols| ensures RowMajor(cols[i]) {
      assert cols[i] == OptionToSeq(CellResource(i, y, choice(i, y)));
    }
    forall i, j, a, b | 0 <= i < j < |cols| && a in cols[i] && b in cols[j] ensures Before(a, b) {
      ColumnAt(y, choice, i, a);
      ColumnAt(y, choice, j, b);
    }
    ConcatRowMajor(cols);
  }

  /** No generated resource lies in the spawn square or the house, every one
      carries the id "{asset}_{x}_{y}" of a table asset, and the list is strictly
      row-major (y first, then x), so each cell holds at most one resource. */
  lemma WorldWellFormed(roll: (int, int) -> real)
    ensures AllWellPlaced(World(roll))
    ensures RowMajor(World(roll))
  {
    var rows := Rows(Choice(roll));
    forall r | r in World(roll) ensures WellPlaced(r) {
      WorldMember(roll, r);
      var picked := RuleFor(roll(r.x, r.y));
      CellResourceWellPlaced(r.x, r.y, picked);
      assert r in OptionToSeq(CellResource(r.x, r.y, picked));
    }
    forall j | 0 <= j < |rows| ensures RowMajor(rows[j]) {
      RowOrdered(j, Choice(roll));
    }
    forall i, j, a, b | 0 <= i < j < |rows| && a in rows[i] && b in rows[j] ensures Before(a, b) {
      RowMember(i, Choice(roll), a);
      RowMember(j, Choice(roll), b);
    }
    ConcatRowMajor(rows);
  }

  /** The step of the generator at cell (x, y): the cell is still free, and
      visiting it appends what CellResource says. */
  lemma GenerationStep(x: nat, y: nat, choice: (int, int) -> Option<Rule>)
    requires x < MAP_SIZE && y < MAP_SIZE
    ensures (x, y) !in Cells(Concat(Rows(choice)[..y]) + Concat(Columns(y, choice)[..x]))
    ensures Concat(Columns(y, choice)[..x + 1]) == Concat(Columns(y, choice)[..x]) + OptionToSeq(CellResource(x, y, choice(x, y)))
  {
    var done := Concat(Rows(choice)[..y]);
    var left := Concat(Columns(y, choice)[..x]);
    forall r | r in done ensures r.y < y {
      PrefixMember(Rows(choice), y, r);
      var j :| 0 <= j < y && r in Rows(choice)[j];
      RowMember(j, choice, r);
    }
    forall r | r in left ensures r.x < x {
      PrefixMember(Columns(y, choice), x, r);
      var i :| 0 <= i < x && r in Columns(y, choice)[i];
      ColumnAt(y, choice, i, r);
    }
    CellsAppend(done, left);
    ConcatSnoc(Columns(y, choice), x);
  }

  /** The generator of the server: visits every cell row by row, skips the
      protected zones, draws one roll per remaining cell and appends at most one
      resource there. The random source is the oracle `roll`, read once per
      visited cell. */
  method GenerateWorld(roll: (int, int) -> real) returns (resources: seq<Resource>)
    ensures resources == World(roll)
  {
    ghost var rows := Rows(Choice(roll));
    resources := [];
    var occupied: set<(int, int)> := {};
    var y := 0;
    while y < MAP_SIZE
      invariant 0 <= y <= MAP_SIZE
      invariant resources == Concat(rows[..y])
      invariant occupied == Cells(resources)
    {
      resources, occupied := GenerateRow(roll, y, resources, occupied);
      ConcatSnoc(rows, y);
      y := y + 1;
    }
    assert rows[..MAP_SIZE] == rows;
  }

  /** One pass of the outer loop of the generator: the columns of row y, left to right. */
  method GenerateRow(roll: (int, int) -> real, y: nat, resources0: seq<Resource>, occupied0: set<(int, int)>)
    returns (resources: seq<Resource>, occupied: set<(int, int)>)
    requires y < MAP_SIZE
    requires resources0 == Concat(Rows(Choice(roll))[..y]) && occupied0 == Cells(resources0)
    ensures resources == resources0 + Row(y, Choice(roll)) && occupied == Cells(resources)
  {
    ghost var choice := Choice(roll);
    ghost var cols := Columns(y, choice);
    resources, occupied := resources0, occupied0;
    var x := 0;
    while x < MAP_SIZE
      invariant 0 <= x <= MAP_SIZE
      invariant resources == resources0 + Concat(cols[..x])
      invariant occupied == Cells(resources)
    {
      GenerationStep(x, y, choice);
      resources, occupied := VisitCell(roll, x, y, resources, occupied);
      assert resources == resources0 + Concat(cols[..x]) + OptionToSeq(CellResource(x, y, choice(x, y)));
      x := x + 1;
    }
    assert cols[..MAP_SIZE] == cols;
  }

  /** The body of the inner loop of the generator at a free cell (x, y): outside
      the protected zones it draws a rule and, when one is picked and the cell is
      not occupied, appends the resource and marks the cell. */
  method VisitCell(roll: (int, int) -> real, x: int, y: int, resources0: seq<Resource>, occupied0: set<(int, int)>)
    returns (resources: seq<Resource>, occupied: set<(int, int)>)
    requires occupied0 == Cells(resources0) && (x, y) !in occupied0
    ensures resources == resources0 + OptionToSeq(CellResource(x, y, Choice(roll)(x, y)))
    ensures occupied == Cells(resources)
  {
    resources, occupied := resources0, occupied0;
    if !(InSafeZone(x, y) || InHouse(x, y)) {
      var rule := DrawRule(roll(x, y));
      if rule.Some? && (x, y) !in occupied {
        var res := Resource(GeneratedId(rule.value.asset, x, y), rule.value.asset, rule.value.kind, x, y);
        CellsAppend(resources, [res]);
        CellsOne(res);
        resources := resources + [res];
        occupied := occupied + {(x, y)};
      }
    }
  }

  /** The cascade of one cell: adds up the chances in table order and stops at
      the first running total that exceeds the roll. */
  method DrawRule(roll: real) returns (rule: Option<Rule>)
    ensures rule == RuleFor(roll)
  {
    var cumulative := 0.0;
    var i := 0;
    while i < |GENERATION_RULES|
      invariant 0 <= i <= |GENERATION_RULES|
      invariant PickFrom(i, roll, cumulative) == RuleFor(roll)
    {
      cumulative := cumulative + GENERATION_RULES[i].chance;
      if roll < cumulative {
        return Some(GENERATION_RULES[i]);
      }
      i := i + 1;
    }
    return None;
  }

  /** The spatial index as Python's dict comprehension builds it: a later
      resource at the same cell overrides an earlier one. */
  function IndexOf(s: seq<Resource>): map<(int, int), Resource>
  {
    if s == [] then map[] else IndexOf(s[..|s| - 1])[Pos(s[|s| - 1]) := s[|s| - 1]]
  }

  predicate DistinctCells(s: seq<Resource>)
  {
    forall i, j :: 0 <= i < j < |s| ==> Pos(s[i]) != Pos(s[j])
  }

  /** The list and the index agree: the index maps (r.x, r.y) to r for every
      listed resource, has no other key, and no two listed resources share a cell. */
  predicate Mirrors(s: seq<Resource>, index: map<(int, int), Resource>)
  {
    && DistinctCells(s)
    && (forall i :: 0 <= i < |s| ==> Pos(s[i]) in index && index[Pos(s[i])] == s[i])
    && index.Keys == Cells(s)
  }

  lemma {:induction false} IndexOfMirrors(s: seq<Resource>)
    requires DistinctCells(s)
    ensures Mirrors(s, IndexOf(s))
  {
    if s != [] {
      var init := s[..|s| - 1];
      IndexOfMirrors(init);
      assert s == init + [s[|s| - 1]];
      CellsAppend(init, [s[|s| - 1]]);
    }
  }

  lemma RowMajorDistinct(s: seq<Resource>)
    requires RowMajor(s)
    ensures DistinctCells(s)
  {
  }

  /** Python's list.remove without the ValueError: drops the first element equal to v. */
  function RemoveFirst(s: seq<Resource>, v: Resource): (r: seq<Resource>)
    ensures multiset(r) == multiset(s) - multiset{v}
    ensures v !in s ==> r == s
    ensures v in s ==> |r| == |s| - 1
  {
    if s == [] then []
    else
      assert s == [s[0]] + s[1..];
      if s[0] == v then s[1..] else [s[0]] + RemoveFirst(s[1..], v)
  }

  /** The list without its element at position i. */
  function RemoveAt(s: seq<Resource>, i: nat): (t: seq<Resource>)
    requires i < |s|
    ensures |t| == |s| - 1
    ensures forall j :: 0 <= j < |t| ==> t[j] == s[if j < i then j else j + 1]
  {
    var t := s[..i] + s[i + 1..];
    assert forall j :: 0 <= j < i ==> t[j] == s[..i][j];
    assert forall j :: i <= j < |t| ==> t[j] == s[i + 1..][j - i];
    t
  }

  lemma {:induction false} RemoveFirstAt(s: seq<Resource>, v: Resource, i: nat)
    requires i < |s| && s[i] == v
    requires forall j :: 0 <= j < i ==> s[j] != v
    ensures RemoveFirst(s, v) == RemoveAt(s, i)
  {
    if i > 0 {
      RemoveFirstAt(s[1..], v, i - 1);
      assert [s[0]] + RemoveAt(s[1..], i - 1) == RemoveAt(s, i);
    } else {
      assert s[1..] == RemoveAt(s, 0);
    }
  }

  /** Dropping element i of a list with distinct cells frees exactly its cell. */
  lemma CellsRemoveAt(s: seq<Resource>, i: nat)
    requires i < |s| && DistinctCells(s)
    ensures DistinctCells(RemoveAt(s, i))
    ensures Cells(RemoveAt(s, i)) == Cells(s) - {Pos(s[i])}
  {
    var t := RemoveAt(s, i);
    forall q | q in Cells(s) && q != Pos(s[i]) ensures q in Cells(t) {
      var r :| r in s && Pos(r) == q;
      var k :| 0 <= k < |s| && s[k] == r;
      assert r == t[if k < i then k else k - 1];
    }
    forall q | q in Cells(t) ensures q in Cells(s) && q != Pos(s[i]) {
      var r :| r in t && Pos(r) == q;
      var k :| 0 <= k < |t| && t[k] == r;
    }
  }

  /** Removing the entry at position i and its key from a mirrored pair leaves a mirrored pair. */
  lemma RemoveAtMirrors(s: seq<Resource>, index: map<(int, int), Resource>, i: nat)
    requires Mirrors(s, index) && i < |s|
    ensures Mirrors(RemoveAt(s, i), index - {Pos(s[i])})
    ensures s[i] !in RemoveAt(s, i)
  {
    var p := Pos(s[i]);
    var t := RemoveAt(s, i);
    CellsRemoveAt(s, i);
    forall j | 0 <= j < |t|
      ensures Pos(t[j]) != p && Pos(t[j]) in index && index[Pos(t[j])] == t[j]
    {
      var k := if j < i then j else j + 1;
      assert Pos(s[k]) != Pos(s[i]);
    }
    assert (index - {p}).Keys == index.Keys - {p};
  }

  /** Removing the resource of one cell from a mirrored pair leaves a mirrored pair. */
  lemma RemovePreservesMirrors(s: seq<Resource>, index: map<(int, int), Resource>, p: (int, int))
    requires Mirrors(s, index) && p in index
    ensures Mirrors(RemoveFirst(s, index[p]), index - {p})
    ensures index[p] !in RemoveFirst(s, index[p])
    ensures |RemoveFirst(s, index[p])| == |s| - 1
  {
    var v := index[p];
    var r :| r in s && Pos(r) == p;
    var i :| 0 <= i < |s| && s[i] == r;
    forall j | 0 <= j < i ensures s[j] != v { assert Pos(s[j]) != Pos(s[i]); }
    RemoveFirstAt(s, v, i);
    RemoveAtMirrors(s, index, i);
  }

  /** Appending a resource at a free cell to a mirrored pair leaves a mirrored pair. */
  lemma AddPreservesMirrors(s: seq<Resource>, index: map<(int, int), Resource>, r: Resource)
    requires Mirrors(s, index) && Pos(r) !in index
    ensures Mirrors(s + [r], index[Pos(r) := r])
  {
    CellsAppend(s, [r]);
  }

  /** The dict comprehension over the generated world loses nothing: every
      generated resource is found at its own cell. */
  lemma WorldIndexed(roll: (int, int) -> real, s: seq<Resource>)
    requires s == World(roll)
    ensures Mirrors(s, IndexOf(s))
  {
    WorldWellFormed(roll);
    RowMajorDistinct(World(roll));
    IndexOfMirrors(World(roll));
  }

  /** The world held by the server. */
  class GameState {
    var resources: seq<Resource>
    var spatialIndex: map<(int, int), Resource>

    ghost predicate Valid()
      reads this
    {
      Mirrors(resources, spatialIndex)
    }

    /** Generates the world from the seeded roll oracle and indexes it. */
    constructor (roll: (int, int) -> real)
      ensures Valid()
      ensures resources == World(roll)
    {
      var generated := GenerateWorld(roll);
      WorldIndexed(roll, generated);
      resources := generated;
      spatialIndex := IndexOf(generated);
    }

    /** get_resource_at: the resource occupying (x, y), if any. */
    function ResourceAt(x: int, y: int): (r: Option<Resource>)
      reads this
      requires Valid()
      ensures r.Some? ==> r.value in resources && r.value.x == x && r.value.y == y
      ensures r.None? ==> forall q :: q in resources ==> Pos(q) != (x, y)
    {
      if (x, y) in spatialIndex then Some(spatialIndex[(x, y)]) else None
    }

    /** remove_resource_at: drops the resource of (x, y) from both the index and the list. */
    method RemoveResourceAt(x: int, y: int) returns (removed: Option<Resource>)
      requires Valid()
      modifies this
      ensures Valid()
      ensures removed == old(ResourceAt(x, y))
      ensures removed.None? ==> resources == old(resources) && spatialIndex == old(spatialIndex)
      ensures removed.Some? ==>
        && resources == RemoveFirst(old(resources), removed.value)
        && |resources| == |old(resources)| - 1
        && spatialIndex == old(spatialIndex) - {(x, y)}
      ensures ResourceAt(x, y).None?
    {
      if (x, y) in spatialIndex {
        var res := spatialIndex[(x, y)];
        RemovePreservesMirrors(resources, spatialIndex, (x, y));
        spatialIndex := spatialIndex - {(x, y)};
        resources := RemoveFirst(resources, res);
        removed := Some(res);
      } else {
        removed := None;
      }
    }

    /** add_resource: places a new resource at a free cell; `now` stands for the
        whole seconds of the server clock that make the id unique. */
    method AddResource(asset: string, kind: string, x: int, y: int, now: nat) returns (created: Option<Resource>)
      requires Valid()
      modifies this
      ensures Valid()
      ensures created.None? <==> (x, y) in old(spatialIndex)
      ensures old(ResourceAt(x, y)).Some? ==>
        created.None? && resources == old(resources) && spatialIndex == old(spatialIndex)
      ensures old(ResourceAt(x, y)).None? ==>
        && created == Some(Resource(GeneratedId(asset, x, y) + "_" + NatToDecimal(now), asset, kind, x, y))
        && resources == old(resources) + [created.value]
        && spatialIndex == old(spatialIndex)[(x, y) := created.value]
    {
      if (x, y) in spatialIndex {
        return None;
      }
      var newId := GeneratedId(asset, x, y) + "_" + NatToDecimal(now);
      var newResource := Resource(newId, asset, kind, x, y);
      AddPreservesMirrors(resources, spatialIndex, newResource);
      resources := resources + [newResource];
      spatialIndex := spatialIndex[(x, y) := newResource];
      created := Some(newResource);
    }
  }
}
