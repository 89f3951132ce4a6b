/** The build store: the item selected in the toolbar and the build-mode flag,
    which always says whether that item is something other than the cursor. */
module BuildStore {

  const CURSOR: string := "cursor"

  class BuildStore {
    var selectedItemId: string
    var isBuildMode: bool

    /** Build mode is on exactly when an item other than the cursor is selected. */
    ghost predicate Valid()
      reads this
    {
      isBuildMode == (selectedItemId != CURSOR)
    }

    /** The initial state: the cursor, not building. */
    constructor ()
      ensures selectedItemId == CURSOR && !isBuildMode
      ensures Valid()
    {
      selectedItemId := CURSOR;
      isBuildMode := false;
    }

    /** `selectItem`: selects the item and derives the flag from it. */
    method SelectItem(id: string)
      modifies this
      ensures selectedItemId == id
      ensures isBuildMode <==> id != CURSOR
      ensures Valid()
    {
      selectedItemId := id;
      isBuildMode := id != CURSOR;
    }

    /** `toggleBuildMode`: leaves build mode by going back to the cursor; outside
        build mode it does nothing (it never enters build mode). */
    method ToggleBuildMode()
      modifies this
      ensures old(isBuildMode) ==> selectedItemId == CURSOR && !isBuildMode
      ensures !old(isBuildMode) ==> selectedItemId == old(selectedItemId) && !isBuildMode
      ensures old(Valid()) ==> Valid()
    {
      if isBuildMode {
        SelectItem(CURSOR);
      }
    }
  }
}
