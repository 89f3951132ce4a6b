/** The client's world store: the day clock in minutes, the objects the
    server reported and the other connected players. */
module WorldStore {
  import opened Common

  const MINUTES_PER_DAY: int := 1440
  const MINUTES_PER_HOUR: int := 60

  /** JavaScript's `%`: the remainder takes the sign of the dividend. */
  function JsRem(a: int, b: int): (r: int)
    requires b > 0
    ensures a >= 0 ==> 0 <= r < b && r == a % b
    ensures a < 0 ==> -b < r <= 0
    ensures (a - r) % b == 0
  {
    if a >= 0 then
      assert a - a % b == b * (a / b);
      MultipleModZero(b, a / b);
      a % b
    else
      assert a + (-a) % b == b * -((-a) / b);
      MultipleModZero(b, -((-a) / b));
      -((-a) % b)
  }

  /** A multiple of b leaves no remainder. */
  lemma MultipleModZero(b: int, k: int)
    requires b > 0
    ensures (b * k) % b == 0
  {
    var c := b * k;
    var q, m := c / b, c % b;
    assert c == b * q + m;
    assert b * (k - q) == m by {
      assert b * k - b * q == b * (k - q);
    }
    MultipleInHalfOpenRange(b, q - k);
  }

  /** The only multiple of b in (-b, 0] is 0. */
  lemma MultipleInHalfOpenRange(b: int, k: int)
    requires b > 0 && -b < b * k <= 0
    ensures k == 0
  {
  }

  /** `tickTime`: add the amount, and reduce modulo a day once the day is over. */
  function Tick(time: int, amount: int): (t: int)
    ensures 0 <= time < MINUTES_PER_DAY && amount >= 0 ==>
      0 <= t < MINUTES_PER_DAY && t == (time + amount) % MINUTES_PER_DAY
    ensures time + amount < MINUTES_PER_DAY ==> t == time + amount
  {
    var sum := time + amount;
    if sum >= MINUTES_PER_DAY then JsRem(sum, MINUTES_PER_DAY) else sum
  }

  /** The getter `hours`: `Math.floor(time / 60)`. */
  function Hours(time: int): (h: int)
    ensures 0 <= time < MINUTES_PER_DAY ==> 0 <= h <= 23
  {
    time / MINUTES_PER_HOUR
  }

  /** The getter `minutes`: `Math.floor(time % 60)` with JavaScript's remainder. */
  function Minutes(time: int): (m: int)
    ensures time >= 0 ==> 0 <= m <= 59 && MINUTES_PER_HOUR * Hours(time) + m == time
  {
    JsRem(time, MINUTES_PER_HOUR)
  }

  /** `padStart(2, '0')`. */
  function PadStart2(s: string): (r: string)
    ensures |r| == if |s| >= 2 then |s| else 2
    ensures |s| >= 2 ==> r == s
    ensures r[|r| - |s|..] == s
    ensures forall i :: 0 <= i < |r| - |s| ==> r[i] == '0'
  {
    if |s| >= 2 then s else seq(2 - |s|, _ => '0') + s
  }

  /** A number below 100 pads to exactly its two decimal digits. */
  lemma TwoDigits(n: int)
    requires 0 <= n < 100
    ensures PadStart2(IntToDecimal(n)) == [DigitChar(n / 10), DigitChar(n % 10)]
  {
    if n >= 10 {
      assert NatToDecimal(n) == NatToDecimal(n / 10) + [DigitChar(n % 10)];
    }
  }

  /** The getter `formattedTime`: `HH:MM`. */
  function FormattedTime(time: int): (f: string)
    ensures |f| >= 5
  {
    PadStart2(IntToDecimal(Hours(time))) + ":" + PadStart2(IntToDecimal(Minutes(time)))
  }

  function DigitAt(s: string, i: nat): int
    requires i < |s|
  {
    (s[i] as int) - ('0' as int)
  }

  /** Within a day the clock reads as five characters, two digits, a colon and two
      digits, and reading the digits back gives the time. */
  lemma FormattedTimeReadsBack(time: int)
    requires 0 <= time < MINUTES_PER_DAY
    ensures var f := FormattedTime(time);
      |f| == 5 && f[2] == ':' &&
      (forall i :: 0 <= i < 5 && i != 2 ==> '0' <= f[i] <= '9') &&
      600 * DigitAt(f, 0) + 60 * DigitAt(f, 1) + 10 * DigitAt(f, 3) + DigitAt(f, 4) == time
  {
    var h := Hours(time);
    var m := Minutes(time);
    var hh := PadStart2(IntToDecimal(h));
    var mm := PadStart2(IntToDecimal(m));
    TwoDigits(h);
    TwoDigits(m);
    var f := FormattedTime(time);
    assert f == hh + ":" + mm;
    ClockDigits(f, h, m);
  }

  /** `HH:MM` made of the tens and units digits of h and m reads back as 60 * h + m. */
  lemma ClockDigits(f: string, h: nat, m: nat)
    requires h < 100 && m < 100
    requires f == [DigitChar(h / 10), DigitChar(h % 10)] + ":" + [DigitChar(m / 10), DigitChar(m % 10)]
    ensures |f| == 5 && f[2] == ':'
    ensures forall i :: 0 <= i < 5 && i != 2 ==> '0' <= f[i] <= '9'
    ensures 600 * DigitAt(f, 0) + 60 * DigitAt(f, 1) + 10 * DigitAt(f, 3) + DigitAt(f, 4) == 60 * h + m
  {
    assert DigitAt(f, 0) == h / 10 && DigitAt(f, 1) == h % 10;
    assert DigitAt(f, 3) == m / 10 && DigitAt(f, 4) == m % 10;
    assert 10 * (h / 10) + h % 10 == h;
    assert 10 * (m / 10) + m % 10 == m;
  }

  /** The getter `isNight`: hours before 6 or from 20 on. */
  function IsNight(time: int): (night: bool)
    ensures 0 <= time < MINUTES_PER_DAY ==> (night <==> time < 6 * MINUTES_PER_HOUR || time >= 20 * MINUTES_PER_HOUR)
  {
    var h := time / MINUTES_PER_HOUR;
    h < 6 || h >= 20
  }

  /** An object of the world as the server reports it. */
  datatype ServerWorldObject = ServerWorldObject(id: string, kind: string, asset: string, x: int, y: int)

  /** `serverObjects.some(o => o.id === id)`. */
  predicate HasId(objs: seq<ServerWorldObject>, id: string)
  {
    exists i | 0 <= i < |objs| :: objs[i].id == id
  }

  predicate UniqueIds(objs: seq<ServerWorldObject>)
  {
    forall i, j :: 0 <= i < j < |objs| ==> objs[i].id != objs[j].id
  }

  /** `serverObjects.filter(o => o.id !== id)`. */
  function WithoutId(objs: seq<ServerWorldObject>, id: string): (r: seq<ServerWorldObject>)
    ensures |r| <= |objs|
    ensures forall o :: o in r <==> o in objs && o.id != id
  {
    if objs == [] then []
    else if objs[0].id == id then WithoutId(objs[1..], id)
    else [objs[0]] + WithoutId(objs[1..], id)
  }

  /** The filter keeps the order of what it keeps: it distributes over concatenation. */
  lemma {:induction false} WithoutIdAppend(a: seq<ServerWorldObject>, b: seq<ServerWorldObject>, id: string)
    ensures WithoutId(a + b, id) == WithoutId(a, id) + WithoutId(b, id)
  {
    if a != [] {
      assert (a + b)[0] == a[0];
      assert (a + b)[1..] == a[1..] + b;
      WithoutIdAppend(a[1..], b, id);
    } else {
      assert a + b == b;
    }
  }

  /** Objects with other ids are kept as they are. */
  lemma {:induction false} WithoutAbsentId(objs: seq<ServerWorldObject>, id: string)
    requires !HasId(objs, id)
    ensures WithoutId(objs, id) == objs
  {
    if objs != [] {
      assert !HasId(objs[1..], id) by {
        forall i | 0 <= i < |objs[1..]| ensures objs[1..][i].id != id {
          assert objs[1..][i] == objs[i + 1];
        }
      }
      WithoutAbsentId(objs[1..], id);
    }
  }

  /** Removing by id keeps the ids unique. */
  lemma {:induction false} WithoutIdUnique(objs: seq<ServerWorldObject>, id: string)
    requires UniqueIds(objs)
    ensures UniqueIds(WithoutId(objs, id))
  {
    if objs != [] {
      assert UniqueIds(objs[1..]) by {
        forall i, j | 0 <= i < j < |objs[1..]| ensures objs[1..][i].id != objs[1..][j].id {
          assert objs[1..][i] == objs[i + 1] && objs[1..][j] == objs[j + 1];
        }
      }
      WithoutIdUnique(objs[1..], id);
      var rest := WithoutId(objs[1..], id);
      forall o | o in rest ensures o.id != objs[0].id {
        var k :| 0 <= k < |objs[1..]| && objs[1..][k] == o;
        assert objs[k + 1] == o;
      }
    }
  }

  datatype RemotePlayer = RemotePlayer(id: string, x: real, y: real)

  /** An element of the list given to `setOtherPlayers`: a bare id, or a record
      whose coordinates may be missing. */
  datatype PlayerEntry = Named(id: string) | Described(id: string, px: Option<real>, py: Option<real>)

  const DEFAULT_POSITION: real := 10.0

  /** The record `setOtherPlayers` stores for an entry: missing coordinates become 10. */
  function EntryPlayer(p: PlayerEntry): (r: RemotePlayer)
    ensures r.id == p.id
    ensures p.Named? ==> r.x == DEFAULT_POSITION && r.y == DEFAULT_POSITION
  {
    match p
    case Named(id) => RemotePlayer(id, DEFAULT_POSITION, DEFAULT_POSITION)
    case Described(id, px, py) =>
      RemotePlayer(id, if px.Some? then px.value else DEFAULT_POSITION, if py.Some? then py.value else DEFAULT_POSITION)
  }

  /** The dictionary after storing the entries one by one, later entries overwriting earlier ones. */
  function PlayersMap(ps: seq<PlayerEntry>): (m: map<string, RemotePlayer>)
    ensures forall id :: id in m ==> m[id].id == id
    ensures ps != [] ==> ps[|ps| - 1].id in m && m[ps[|ps| - 1].id] == EntryPlayer(ps[|ps| - 1])
  {
    if ps == [] then map[]
    else PlayersMap(ps[..|ps| - 1])[ps[|ps| - 1].id := EntryPlayer(ps[|ps| - 1])]
  }

  /** The keys are exactly the ids of the entries, each mapped to a record with its own id. */
  lemma {:induction false} PlayersMapKeys(ps: seq<PlayerEntry>)
    ensures forall id :: id in PlayersMap(ps) <==> exists i :: 0 <= i < |ps| && ps[i].id == id
    ensures forall id :: id in PlayersMap(ps) ==> PlayersMap(ps)[id].id == id
  {
    if ps != [] {
      var init := ps[..|ps| - 1];
      PlayersMapKeys(init);
      forall id | (exists i :: 0 <= i < |ps| && ps[i].id == id)
        ensures id in PlayersMap(ps)
      {
        var i :| 0 <= i < |ps| && ps[i].id == id;
        if i < |ps| - 1 {
          assert init[i] == ps[i];
        }
      }
      forall id | id in PlayersMap(ps)
        ensures exists i :: 0 <= i < |ps| && ps[i].id == id
      {
        if id != ps[|ps| - 1].id {
          assert id in PlayersMap(init);
          var i :| 0 <= i < |init| && init[i].id == id;
          assert ps[i] == init[i];
        }
      }
    }
  }

  /** The record of an id comes from the last entry carrying that id. */
  lemma {:induction false} PlayersMapLast(ps: seq<PlayerEntry>, i: int)
    requires 0 <= i < |ps|
    requires forall j :: i < j < |ps| ==> ps[j].id != ps[i].id
    ensures ps[i].id in PlayersMap(ps) && PlayersMap(ps)[ps[i].id] == EntryPlayer(ps[i])
  {
    if i < |ps| - 1 {
      var init := ps[..|ps| - 1];
      assert init[i] == ps[i];
      PlayersMapLast(init, i);
    }
  }

  class WorldStore {
    var time: int
    var isMapLoaded: bool
    var serverObjects: seq<ServerWorldObject>
    var otherPlayers: map<string, RemotePlayer>

    /** Every player record sits under its own id. */
    ghost predicate Valid()
      reads this
    {
      forall id :: id in otherPlayers ==> otherPlayers[id].id == id
    }

    /** The initial state: 08:00, no map, no objects, no other players. */
    constructor ()
      ensures time == 480 && Hours(time) == 8 && Minutes(time) == 0
      ensures !isMapLoaded && serverObjects == [] && otherPlayers == map[]
      ensures Valid()
    {
      time := 480;
      isMapLoaded := false;
      serverObjects := [];
      otherPlayers := map[];
    }

    method TickTime(amount: int)
      modifies this
      ensures time == Tick(old(time), amount)
      ensures serverObjects == old(serverObjects) && otherPlayers == old(otherPlayers)
    {
      time := time + amount;
      if time >= MINUTES_PER_DAY {
        time := JsRem(time, MINUTES_PER_DAY);
      }
    }

    method SetMapLoaded(loaded: bool)
      modifies this
      ensures isMapLoaded == loaded
      ensures time == old(time) && serverObjects == old(serverObjects) && otherPlayers == old(otherPlayers)
    {
      isMapLoaded := loaded;
    }

    /** `loadWorldState`: a payload with a resource list replaces the objects;
        a payload without one changes nothing. */
    method LoadWorldState(resources: Option<seq<ServerWorldObject>>)
      modifies this
      ensures serverObjects == if resources.Some? then resources.value else old(serverObjects)
      ensures time == old(time) && otherPlayers == old(otherPlayers)
    {
      if resources.Some? {
        serverObjects := resources.value;
      }
    }

    /** `addServerObject`: appends the object unless one with its id is already there. */
    method AddServerObject(obj: ServerWorldObject)
      modifies this
      ensures serverObjects == if HasId(old(serverObjects), obj.id) then old(serverObjects) else old(serverObjects) + [obj]
      ensures UniqueIds(old(serverObjects)) ==> UniqueIds(serverObjects)
      ensures HasId(serverObjects, obj.id)
      ensures time == old(time) && otherPlayers == old(otherPlayers)
    {
      var exists_ := HasId(serverObjects, obj.id);
      if !exists_ {
        serverObjects := serverObjects + [obj];
        assert serverObjects[|serverObjects| - 1] == obj;
      }
    }

    /** `removeServerObject`: keeps every object whose id differs, in order. */
    method RemoveServerObject(id: string)
      modifies this
      ensures serverObjects == WithoutId(old(serverObjects), id)
      ensures !HasId(serverObjects, id)
      ensures UniqueIds(old(serverObjects)) ==> UniqueIds(serverObjects)
      ensures time == old(time) && otherPlayers == old(otherPlayers)
    {
      if UniqueIds(serverObjects) {
        WithoutIdUnique(serverObjects, id);
      }
      serverObjects := WithoutId(serverObjects, id);
      assert forall i :: 0 <= i < |serverObjects| ==> serverObjects[i] in serverObjects;
    }

    /** `setOtherPlayers`: a fresh dictionary filled entry by entry. */
    method SetOtherPlayers(players: seq<PlayerEntry>)
      modifies this
      ensures otherPlayers == PlayersMap(players)
      ensures Valid()
      ensures time == old(time) && serverObjects == old(serverObjects)
    {
      otherPlayers := map[];
      var i := 0;
      while i < |players|
        invariant 0 <= i <= |players|
        invariant otherPlayers == PlayersMap(players[..i])
        invariant time == old(time) && serverObjects == old(serverObjects)
      {
        var p := players[i];
        assert players[..i + 1][..i] == players[..i];
        otherPlayers := otherPlayers[p.id := EntryPlayer(p)];
        i := i + 1;
      }
      assert players[..|players|] == players;
      PlayersMapKeys(players);
    }

    method AddOtherPlayer(id: string, x: real, y: real)
      requires Valid()
      modifies this
      ensures otherPlayers == old(otherPlayers)[id := RemotePlayer(id, x, y)]
      ensures Valid()
      ensures time == old(time) && serverObjects == old(serverObjects)
    {
      otherPlayers := otherPlayers[id := RemotePlayer(id, x, y)];
    }

    method RemoveOtherPlayer(id: string)
      requires Valid()
      modifies this
      ensures otherPlayers == old(otherPlayers) - {id}
      ensures Valid()
      ensures time == old(time) && serverObjects == old(serverObjects)
    {
      otherPlayers := otherPlayers - {id};
    }

    /** `moveOtherPlayer`: moves a known player, or adds an unknown one; either
        way the record ends as {id, x, y}. */
    method MoveOtherPlayer(id: string, x: real, y: real)
      requires Valid()
      modifies this
      ensures otherPlayers == old(otherPlayers)[id := RemotePlayer(id, x, y)]
      ensures Valid()
      ensures time == old(time) && serverObjects == old(serverObjects)
    {
      if id in otherPlayers {
        otherPlayers := otherPlayers[id := otherPlayers[id].(x := x, y := y)];
      } else {
        AddOtherPlayer(id, x, y);
      }
    }
  }
}
