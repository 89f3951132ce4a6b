/** The client's registry of world objects: one image per grid cell, stored in
    a map under the key `"x,y"`. An image is kept as the texture key it was
    created with and the grid position it records; drawing is not modelled. */
module ObjectManager {
  import opened Common

  datatype Image = Image(texture: string, gridX: int, gridY: int)

  /** The template literal `${x},${y}`. */
  function Key(x: int, y: int): string
  {
    IntToDecimal(x) + [','] + IntToDecimal(y)
  }

  /** A key holds exactly one comma, and otherwise only digits and minus signs. */
  lemma KeyShape(x: int, y: int)
    ensures multiset(Key(x, y))[','] == 1
    ensures forall i :: 0 <= i < |Key(x, y)| && Key(x, y)[i] != ',' ==> Key(x, y)[i] == '-' || '0' <= Key(x, y)[i] <= '9'
  {
    var a, b := IntToDecimal(x), IntToDecimal(y);
    DecimalChars(x);
    DecimalChars(y);
    assert multiset(a)[','] == 0 && multiset(b)[','] == 0;
    assert Key(x, y) == a + [','] + b;
  }

  /** A rendered integer is made of digits and a leading minus sign. */
  lemma DecimalChars(n: int)
    ensures forall i :: 0 <= i < |IntToDecimal(n)| ==> IntToDecimal(n)[i] == '-' || '0' <= IntToDecimal(n)[i] <= '9'
  {
    if n < 0 {
      assert IntToDecimal(n) == "-" + NatToDecimal(-n);
    }
  }

  /** Distinct cells have distinct keys, so placements never collide. */
  lemma KeyInjective(x1: int, y1: int, x2: int, y2: int)
    requires Key(x1, y1) == Key(x2, y2)
    ensures x1 == x2 && y1 == y2
  {
    SplitAtSeparator(IntToDecimal(x1), IntToDecimal(y1), IntToDecimal(x2), IntToDecimal(y2), ',');
    IntToDecimalInjective(x1, x2);
    IntToDecimalInjective(y1, y2);
  }

  class ObjectManager {
    var objectMap: map<string, Image>

    constructor ()
      ensures objectMap == map[]
    {
      objectMap := map[];
    }

    /** `placeObject`: creates the image for (x, y) and stores it under the
        cell's key, replacing whatever was there. */
    method PlaceObject(x: int, y: int, texture: string) returns (obj: Image)
      modifies this
      ensures obj == Image(texture, x, y)
      ensures objectMap == old(objectMap)[Key(x, y) := obj]
      ensures HasObject(x, y) && GetObject(x, y) == Some(obj)
      ensures forall x2, y2 :: (x2, y2) != (x, y) ==> GetObject(x2, y2) == old(GetObject(x2, y2))
    {
      obj := Image(texture, x, y);
      objectMap := objectMap[Key(x, y) := obj];
      forall x2, y2 | (x2, y2) != (x, y)
        ensures GetObject(x2, y2) == old(GetObject(x2, y2))
      {
        if Key(x2, y2) == Key(x, y) {
          KeyInjective(x2, y2, x, y);
        }
      }
    }

    /** `getObject`: the image stored for (x, y), if any. */
    function GetObject(x: int, y: int): (obj: Option<Image>)
      reads this
      ensures obj.Some? <==> Key(x, y) in objectMap
      ensures obj.Some? ==> obj.value == objectMap[Key(x, y)]
    {
      if Key(x, y) in objectMap then Some(objectMap[Key(x, y)]) else None
    }

    /** `removeObject`: drops the entry of (x, y) when there is one. */
    method RemoveObject(x: int, y: int)
      modifies this
      ensures objectMap == old(objectMap) - {Key(x, y)}
      ensures !HasObject(x, y)
      ensures Key(x, y) !in old(objectMap) ==> objectMap == old(objectMap)
      ensures forall x2, y2 :: (x2, y2) != (x, y) ==> GetObject(x2, y2) == old(GetObject(x2, y2))
    {
      var key := Key(x, y);
      if key in objectMap {
        objectMap := objectMap - {key};
      }
      assert key !in objectMap;
      forall x2, y2 | (x2, y2) != (x, y)
        ensures GetObject(x2, y2) == old(GetObject(x2, y2))
      {
        var other := Key(x2, y2);
        if other == key {
          KeyInjective(x2, y2, x, y);
        }
        assert other != key;
      }
    }

    /** `hasObject`: whether (x, y) holds an image. */
    function HasObject(x: int, y: int): (has: bool)
      reads this
      ensures has <==> GetObject(x, y).Some?
    {
      Key(x, y) in objectMap
    }

    /** `clear`: drops every entry. */
    method Clear()
      modifies this
      ensures objectMap == map[]
      ensures forall x, y :: !HasObject(x, y)
    {
      objectMap := map[];
    }
  }
}
