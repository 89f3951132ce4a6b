/** The local player's store: identity, colour, grid position, level and
    experience, and an inventory of item names. */
module PlayerStore {

  datatype Position = Position(x: real, y: real)

  const DEFAULT_USERNAME: string := "Voyageur"
  const DEFAULT_COLOR: int := 0xe11d48

  class PlayerStore {
    var username: string
    var color: int
    var position: Position
    var level: int
    var xp: int
    var inventory: seq<string>

    /** The initial state: level 1, no experience, at the origin, empty-handed. */
    constructor ()
      ensures username == DEFAULT_USERNAME && color == DEFAULT_COLOR
      ensures position == Position(0.0, 0.0)
      ensures level == 1 && xp == 0 && inventory == []
    {
      username := DEFAULT_USERNAME;
      color := DEFAULT_COLOR;
      position := Position(0.0, 0.0);
      level := 1;
      xp := 0;
      inventory := [];
    }

    /** `move`: the position becomes exactly (x, y); nothing else changes. */
    method Move(x: real, y: real)
      modifies this
      ensures position == Position(x, y)
      ensures username == old(username) && color == old(color) && level == old(level)
      ensures xp == old(xp) && inventory == old(inventory)
    {
      position := Position(x, y);
    }

    /** `levelUp`: one more level; nothing else changes. */
    method LevelUp()
      modifies this
      ensures level == old(level) + 1
      ensures username == old(username) && color == old(color) && position == old(position)
      ensures xp == old(xp) && inventory == old(inventory)
    {
      level := level + 1;
    }

    /** `changeColor`: replaces the colour only. */
    method ChangeColor(newColor: int)
      modifies this
      ensures color == newColor
      ensures username == old(username) && position == old(position) && level == old(level)
      ensures xp == old(xp) && inventory == old(inventory)
    {
      color := newColor;
    }

    /** `addItem`: the item goes at the end; earlier items stay as they were. */
    method AddItem(item: string)
      modifies this
      ensures |inventory| == |old(inventory)| + 1 && inventory[|inventory| - 1] == item
      ensures inventory[..|old(inventory)|] == old(inventory)
      ensures username == old(username) && color == old(color) && position == old(position)
      ensures level == old(level) && xp == old(xp)
    {
      inventory := inventory + [item];
    }
  }
}
