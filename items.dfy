/** The item registry: every item the inventory can hold, keyed by its id, and
    the lookup the inventory uses. */
module ItemRegistry {
  import opened Common

  datatype ItemType = Resource | Tool | Equipment | Consumable | Other | Seed
  datatype ToolType = Axe | Pickaxe | Knife | Shovel | NoTool
  datatype SlotType = Head | Body | MainHand | Accessory

  /** An entry; the optional fields of the record are Options. */
  datatype ItemData = ItemData(id: string, name: string, kind: ItemType, toolType: Option<ToolType>,
                               slotType: Option<SlotType>, description: Option<string>, icon: Option<string>)

  const ITEM_REGISTRY: map<string, ItemData> := map[
    "Bois" := ItemData("Bois", "Bois", Resource, None, None, Some("Une bûche de bois brute."), None),
    "Pierre" := ItemData("Pierre", "Pierre", Resource, None, None, Some("Une pierre solide."), None),
    "Hache en pierre" := ItemData("Hache en pierre", "Hache en pierre", Tool, Some(Axe), Some(MainHand),
                                  Some("Indispensable pour couper du bois."), None),
    "Chapeau de paille" := ItemData("Chapeau de paille", "Chapeau de paille", Equipment, None, Some(Head), None, None),
    "Tunique" := ItemData("Tunique", "Tunique", Equipment, None, Some(Body), None, None),
    "Anneau" := ItemData("Anneau", "Anneau", Equipment, None, Some(Accessory), None, None),
    "Flasque d'eau" := ItemData("Flasque d'eau", "Flasque d'eau", Consumable, None, None, None, None),
    "Pomme" := ItemData("Pomme", "Pomme", Consumable, None, None, None, None),
    "Kit de Feu de Camp" := ItemData("Kit de Feu de Camp", "Kit de Feu de Camp", Other, None, None, None, None),
    "cotton_plant" := ItemData("cotton_plant", "Fleur de Coton", Resource, None, None,
                               Some("Du coton doux et soyeux."), None),
    "raw_clay" := ItemData("raw_clay", "Argile brute", Resource, None, None,
                           Some("Terre malléable, utile pour la poterie."), None),
    "tool_knife" := ItemData("tool_knife", "Couteau en silex", Tool, Some(Knife), Some(MainHand),
                             Some("Tranchant, idéal pour les plantes."), None),
    "tool_pickaxe" := ItemData("tool_pickaxe", "Pioche en pierre", Tool, Some(Pickaxe), Some(MainHand),
                               Some("Permet de briser la roche."), None),
    "tool_shovel" := ItemData("tool_shovel", "Pelle rudimentaire", Tool, Some(Shovel), Some(MainHand),
                              Some("Pour creuser la terre."), None),
    "gloves" := ItemData("gloves", "Gants de travail", Equipment, None, Some(Accessory),
                         Some("Protège les mains."), None),
    "furnace" := ItemData("furnace", "Four en pierre", Other, None, None, Some("Pour cuire l'argile."), None),
    "clay_pot" := ItemData("clay_pot", "Pot en argile", Other, None, None, Some("Un pot pour les semis."), None),
    "watering_can" := ItemData("watering_can", "Arrosoir", Tool, None, Some(MainHand),
                               Some("Pour arroser les plantes."), None),
    "cotton_seeds" := ItemData("cotton_seeds", "Graines de coton", Seed, None, Some(MainHand),
                               Some("Graines de coton. À planter dans un pot."), None)
  ]

  /** The consistency rules every entry keeps: it is filed under its own id,
      tools go in the main hand, only tools name a tool type, and equipment
      always says which slot it occupies. */
  predicate WellFormed(key: string, item: ItemData)
  {
    && item.id == key
    && (item.kind == Tool ==> item.slotType == Some(MainHand))
    && (item.toolType.Some? ==> item.kind == Tool)
    && (item.kind == Equipment ==> item.slotType.Some?)
  }

  /** Every entry of the registry is well formed. */
  lemma RegistryWellFormed()
    ensures forall key :: key in ITEM_REGISTRY ==> WellFormed(key, ITEM_REGISTRY[key])
  {
    forall key | key in ITEM_REGISTRY
      ensures WellFormed(key, ITEM_REGISTRY[key])
    {
      RegistryEntryWellFormed(key);
    }
  }

  lemma RegistryEntryWellFormed(key: string)
    requires key in ITEM_REGISTRY
    ensures WellFormed(key, ITEM_REGISTRY[key])
  {
  }

  /** `getItemData`: the entry filed under the key, or undefined (None). */
  function GetItemData(idOrName: string): (item: Option<ItemData>)
    ensures item.Some? <==> idOrName in ITEM_REGISTRY
    ensures item.Some? ==> item.value == ITEM_REGISTRY[idOrName] && WellFormed(idOrName, item.value)
  {
    if idOrName in ITEM_REGISTRY then
      RegistryEntryWellFormed(idOrName);
      Some(ITEM_REGISTRY[idOrName])
    else None
  }
}
