/** The 1.10 entity and object type tables. Both are looked up through maps built once from the declarations
  * in declaration order, so a repeated id would keep the last type declared with it. */
module Entity1_10Types {
  import opened Wrappers

  datatype EntityType =
    | Entity
    | DroppedItem
    | ExperienceOrb
    | LeashHitch
    | Painting
    | Arrow
    | Snowball
    | Fireball
    | SmallFireball
    | EnderPearl
    | EnderSignal
    | ThrownExpBottle
    | ItemFrame
    | WitherSkull
    | PrimedTnt
    | FallingBlock
    | Firework
    | TippedArrow
    | SpectralArrow
    | ShulkerBullet
    | DragonFireball
    | EntityLiving
    | EntityInsentient
    | EntityAgeable
    | EntityTameableAnimal
    | EntityHuman
    | ArmorStand
    | MinecartAbstract
    | MinecartCommand
    | Boat
    | MinecartRideable
    | MinecartChest
    | MinecartFurnace
    | MinecartTnt
    | MinecartHopper
    | MinecartMobSpawner
    | Creeper
    | Skeleton
    | Spider
    | Giant
    | Zombie
    | Slime
    | Ghast
    | PigZombie
    | Enderman
    | CaveSpider
    | Silverfish
    | Blaze
    | MagmaCube
    | EnderDragon
    | Wither
    | Bat
    | Witch
    | Endermite
    | Guardian
    | IronGolem
    | Shulker
    | Pig
    | Sheep
    | Cow
    | Chicken
    | Squid
    | Wolf
    | MushroomCow
    | Snowman
    | Ocelot
    | Horse
    | Rabbit
    | PolarBear
    | Villager
    | EnderCrystal
    | SplashPotion
    | LingeringPotion
    | AreaEffectCloud
    | Egg
    | FishingHook
    | Lightning
    | Weather
    | Player
    | ComplexPart
  {
    function Id(): int {
      match this
      case Entity => -1
      case DroppedItem => 1
      case ExperienceOrb => 2
      case LeashHitch => 8
      case Painting => 9
      case Arrow => 10
      case Snowball => 11
      case Fireball => 12
      case SmallFireball => 13
      case EnderPearl => 14
      case EnderSignal => 15
      case ThrownExpBottle => 17
      case ItemFrame => 18
      case WitherSkull => 19
      case PrimedTnt => 20
      case FallingBlock => 21
      case Firework => 22
      case TippedArrow => 23
      case SpectralArrow => 24
      case ShulkerBullet => 25
      case DragonFireball => 26
      case EntityLiving => -1
      case EntityInsentient => -1
      case EntityAgeable => -1
      case EntityTameableAnimal => -1
      case EntityHuman => -1
      case ArmorStand => 30
      case MinecartAbstract => -1
      case MinecartCommand => 40
      case Boat => 41
      case MinecartRideable => 42
      case MinecartChest => 43
      case MinecartFurnace => 44
      case MinecartTnt => 45
      case MinecartHopper => 46
      case MinecartMobSpawner => 47
      case Creeper => 50
      case Skeleton => 51
      case Spider => 52
      case Giant => 53
      case Zombie => 54
      case Slime => 55
      case Ghast => 56
      case PigZombie => 57
      case Enderman => 58
      case CaveSpider => 59
      case Silverfish => 60
      case Blaze => 61
      case MagmaCube => 62
      case EnderDragon => 63
      case Wither => 64
      case Bat => 65
      case Witch => 66
      case Endermite => 67
      case Guardian => 68
      case IronGolem => 99
      case Shulker => 69
      case Pig => 90
      case Sheep => 91
      case Cow => 92
      case Chicken => 93
      case Squid => 94
      case Wolf => 95
      case MushroomCow => 96
      case Snowman => 97
      case Ocelot => 98
      case Horse => 100
      case Rabbit => 101
      case PolarBear => 102
      case Villager => 120
      case EnderCrystal => 200
      case SplashPotion => -1
      case LingeringPotion => -1
      case AreaEffectCloud => -1
      case Egg => -1
      case FishingHook => -1
      case Lightning => -1
      case Weather => -1
      case Player => -1
      case ComplexPart => -1
    }

    function Parent(): Option<EntityType> {
      match this
      case Entity => None
      case DroppedItem => Some(EntityType.Entity)
      case ExperienceOrb => Some(EntityType.Entity)
      case LeashHitch => Some(EntityType.Entity)
      case Painting => Some(EntityType.Entity)
      case Arrow => Some(EntityType.Entity)
      case Snowball => Some(EntityType.Entity)
      case Fireball => Some(EntityType.Entity)
      case SmallFireball => Some(EntityType.Entity)
      case EnderPearl => Some(EntityType.Entity)
      case EnderSignal => Some(EntityType.Entity)
      case ThrownExpBottle => Some(EntityType.Entity)
      case ItemFrame => Some(EntityType.Entity)
      case WitherSkull => Some(EntityType.Entity)
      case PrimedTnt => Some(EntityType.Entity)
      case FallingBlock => Some(EntityType.Entity)
      case Firework => Some(EntityType.Entity)
      case TippedArrow => Some(EntityType.Arrow)
      case SpectralArrow => Some(EntityType.Arrow)
      case ShulkerBullet => Some(EntityType.Entity)
      case DragonFireball => Some(EntityType.Fireball)
      case EntityLiving => Some(EntityType.Entity)
      case EntityInsentient => Some(EntityType.EntityLiving)
      case EntityAgeable => Some(EntityType.EntityInsentient)
      case EntityTameableAnimal => Some(EntityType.EntityAgeable)
      case EntityHuman => Some(EntityType.EntityLiving)
      case ArmorStand => Some(EntityType.EntityLiving)
      case MinecartAbstract => Some(EntityType.Entity)
      case MinecartCommand => Some(EntityType.MinecartAbstract)
      case Boat => Some(EntityType.Entity)
      case MinecartRideable => Some(EntityType.MinecartAbstract)
      case MinecartChest => Some(EntityType.MinecartAbstract)
      case MinecartFurnace => Some(EntityType.MinecartAbstract)
      case MinecartTnt => Some(EntityType.MinecartAbstract)
      case MinecartHopper => Some(EntityType.MinecartAbstract)
      case MinecartMobSpawner => Some(EntityType.MinecartAbstract)
      case Creeper => Some(EntityType.EntityInsentient)
      case Skeleton => Some(EntityType.EntityInsentient)
      case Spider => Some(EntityType.EntityInsentient)
      case Giant => Some(EntityType.EntityInsentient)
      case Zombie => Some(EntityType.EntityInsentient)
      case Slime => Some(EntityType.EntityInsentient)
      case Ghast => Some(EntityType.EntityInsentient)
      case PigZombie => Some(EntityType.Zombie)
      case Enderman => Some(EntityType.EntityInsentient)
      case CaveSpider => Some(EntityType.Spider)
      case Silverfish => Some(EntityType.EntityInsentient)
      case Blaze => Some(EntityType.EntityInsentient)
      case MagmaCube => Some(EntityType.Slime)
      case EnderDragon => Some(EntityType.EntityInsentient)
      case Wither => Some(EntityType.EntityInsentient)
      case Bat => Some(EntityType.EntityInsentient)
      case Witch => Some(EntityType.EntityInsentient)
      case Endermite => Some(EntityType.EntityInsentient)
      case Guardian => Some(EntityType.EntityInsentient)
      case IronGolem => Some(EntityType.EntityInsentient)
      case Shulker => Some(EntityType.IronGolem)
      case Pig => Some(EntityType.EntityAgeable)
      case Sheep => Some(EntityType.EntityAgeable)
      case Cow => Some(EntityType.EntityAgeable)
      case Chicken => Some(EntityType.EntityAgeable)
      case Squid => Some(EntityType.EntityInsentient)
      case Wolf => Some(EntityType.EntityTameableAnimal)
      case MushroomCow => Some(EntityType.Cow)
      case Snowman => Some(EntityType.IronGolem)
      case Ocelot => Some(EntityType.EntityTameableAnimal)
      case Horse => Some(EntityType.EntityAgeable)
      case Rabbit => Some(EntityType.EntityAgeable)
      case PolarBear => Some(EntityType.EntityAgeable)
      case Villager => Some(EntityType.EntityAgeable)
      case EnderCrystal => Some(EntityType.Entity)
      case SplashPotion => Some(EntityType.Entity)
      case LingeringPotion => Some(EntityType.SplashPotion)
      case AreaEffectCloud => Some(EntityType.Entity)
      case Egg => Some(EntityType.Entity)
      case FishingHook => Some(EntityType.Entity)
      case Lightning => Some(EntityType.Entity)
      case Weather => Some(EntityType.Entity)
      case Player => Some(EntityType.EntityHuman)
      case ComplexPart => Some(EntityType.Entity)
    }
  }

  /** The contents of `EntityType.TYPES` for every id other than -1: each declared type under its own id.
    * (Under -1 the map holds the last type declared with -1, which no lookup reaches.) */
  function TypeWithId(id: int): Option<EntityType> {
    match id
    case 1 => Some(EntityType.DroppedItem)
    case 2 => Some(EntityType.ExperienceOrb)
    case 8 => Some(EntityType.LeashHitch)
    case 9 => Some(EntityType.Painting)
    case 10 => Some(EntityType.Arrow)
    case 11 => Some(EntityType.Snowball)
    case 12 => Some(EntityType.Fireball)
    case 13 => Some(EntityType.SmallFireball)
    case 14 => Some(EntityType.EnderPearl)
    case 15 => Some(EntityType.EnderSignal)
    case 17 => Some(EntityType.ThrownExpBottle)
    case 18 => Some(EntityType.ItemFrame)
    case 19 => Some(EntityType.WitherSkull)
    case 20 => Some(EntityType.PrimedTnt)
    case 21 => Some(EntityType.FallingBlock)
    case 22 => Some(EntityType.Firework)
    case 23 => Some(EntityType.TippedArrow)
    case 24 => Some(EntityType.SpectralArrow)
    case 25 => Some(EntityType.ShulkerBullet)
    case 26 => Some(EntityType.DragonFireball)
    case 30 => Some(EntityType.ArmorStand)
    case 40 => Some(EntityType.MinecartCommand)
    case 41 => Some(EntityType.Boat)
    case 42 => Some(EntityType.MinecartRideable)
    case 43 => Some(EntityType.MinecartChest)
    case 44 => Some(EntityType.MinecartFurnace)
    case 45 => Some(EntityType.MinecartTnt)
    case 46 => Some(EntityType.MinecartHopper)
    case 47 => Some(EntityType.MinecartMobSpawner)
    case 50 => Some(EntityType.Creeper)
    case 51 => Some(EntityType.Skeleton)
    case 52 => Some(EntityType.Spider)
    case 53 => Some(EntityType.Giant)
    case 54 => Some(EntityType.Zombie)
    case 55 => Some(EntityType.Slime)
    case 56 => Some(EntityType.Ghast)
    case 57 => Some(EntityType.PigZombie)
    case 58 => Some(EntityType.Enderman)
    case 59 => Some(EntityType.CaveSpider)
    case 60 => Some(EntityType.Silverfish)
    case 61 => Some(EntityType.Blaze)
    case 62 => Some(EntityType.MagmaCube)
    case 63 => Some(EntityType.EnderDragon)
    case 64 => Some(EntityType.Wither)
    case 65 => Some(EntityType.Bat)
    case 66 => Some(EntityType.Witch)
    case 67 => Some(EntityType.Endermite)
    case 68 => Some(EntityType.Guardian)
    case 99 => Some(EntityType.IronGolem)
    case 69 => Some(EntityType.Shulker)
    case 90 => Some(EntityType.Pig)
    case 91 => Some(EntityType.Sheep)
    case 92 => Some(EntityType.Cow)
    case 93 => Some(EntityType.Chicken)
    case 94 => Some(EntityType.Squid)
    case 95 => Some(EntityType.Wolf)
    case 96 => Some(EntityType.MushroomCow)
    case 97 => Some(EntityType.Snowman)
    case 98 => Some(EntityType.Ocelot)
    case 100 => Some(EntityType.Horse)
    case 101 => Some(EntityType.Rabbit)
    case 102 => Some(EntityType.PolarBear)
    case 120 => Some(EntityType.Villager)
    case 200 => Some(EntityType.EnderCrystal)
    case _ => None
  }

  datatype ObjectType =
    | Boat
    | Item
    | AreaEffectCloud
    | Minecart
    | TntPrimed
    | EnderCrystal
    | TippedArrow
    | Snowball
    | Egg
    | Fireball
    | SmallFireball
    | EnderPearl
    | WitherSkull
    | ShulkerBullet
    | FallingBlock
    | ItemFrame
    | EnderSignal
    | Potion
    | ThrownExpBottle
    | Firework
    | Leash
    | ArmorStand
    | FishihngHook
    | SpectralArrow
    | DragonFireball
  {
    function Id(): int {
      match this
      case Boat => 1
      case Item => 2
      case AreaEffectCloud => 3
      case Minecart => 10
      case TntPrimed => 50
      case EnderCrystal => 51
      case TippedArrow => 60
      case Snowball => 61
      case Egg => 62
      case Fireball => 63
      case SmallFireball => 64
      case EnderPearl => 65
      case WitherSkull => 66
      case ShulkerBullet => 67
      case FallingBlock => 70
      case ItemFrame => 71
      case EnderSignal => 72
      case Potion => 73
      case ThrownExpBottle => 75
      case Firework => 76
      case Leash => 77
      case ArmorStand => 78
      case FishihngHook => 90
      case SpectralArrow => 91
      case DragonFireball => 93
    }

    function Type(): EntityType {
      match this
      case Boat => EntityType.Boat
      case Item => EntityType.DroppedItem
      case AreaEffectCloud => EntityType.AreaEffectCloud
      case Minecart => EntityType.MinecartRideable
      case TntPrimed => EntityType.PrimedTnt
      case EnderCrystal => EntityType.EnderCrystal
      case TippedArrow => EntityType.TippedArrow
      case Snowball => EntityType.Snowball
      case Egg => EntityType.Egg
      case Fireball => EntityType.Fireball
      case SmallFireball => EntityType.SmallFireball
      case EnderPearl => EntityType.EnderPearl
      case WitherSkull => EntityType.WitherSkull
      case ShulkerBullet => EntityType.ShulkerBullet
      case FallingBlock => EntityType.FallingBlock
      case ItemFrame => EntityType.ItemFrame
      case EnderSignal => EntityType.EnderSignal
      case Potion => EntityType.SplashPotion
      case ThrownExpBottle => EntityType.ThrownExpBottle
      case Firework => EntityType.Firework
      case Leash => EntityType.LeashHitch
      case ArmorStand => EntityType.ArmorStand
      case FishihngHook => EntityType.FishingHook
      case SpectralArrow => EntityType.SpectralArrow
      case DragonFireball => EntityType.DragonFireball
    }
  }

  /** The contents of `ObjectTypes.TYPES`: each declared object type under its own id. */
  function ObjectTypeWithId(id: int): Option<ObjectType> {
    match id
    case 1 => Some(ObjectType.Boat)
    case 2 => Some(ObjectType.Item)
    case 3 => Some(ObjectType.AreaEffectCloud)
    case 10 => Some(ObjectType.Minecart)
    case 50 => Some(ObjectType.TntPrimed)
    case 51 => Some(ObjectType.EnderCrystal)
    case 60 => Some(ObjectType.TippedArrow)
    case 61 => Some(ObjectType.Snowball)
    case 62 => Some(ObjectType.Egg)
    case 63 => Some(ObjectType.Fireball)
    case 64 => Some(ObjectType.SmallFireball)
    case 65 => Some(ObjectType.EnderPearl)
    case 66 => Some(ObjectType.WitherSkull)
    case 67 => Some(ObjectType.ShulkerBullet)
    case 70 => Some(ObjectType.FallingBlock)
    case 71 => Some(ObjectType.ItemFrame)
    case 72 => Some(ObjectType.EnderSignal)
    case 73 => Some(ObjectType.Potion)
    case 75 => Some(ObjectType.ThrownExpBottle)
    case 76 => Some(ObjectType.Firework)
    case 77 => Some(ObjectType.Leash)
    case 78 => Some(ObjectType.ArmorStand)
    case 90 => Some(ObjectType.FishihngHook)
    case 91 => Some(ObjectType.SpectralArrow)
    case 93 => Some(ObjectType.DragonFireball)
    case _ => None
  }

  /** `EntityType.findById`: nothing for -1, otherwise the type stored under `id`. */
  function FindById(id: int): (r: Option<EntityType>)
    ensures id == -1 ==> r.None?
    ensures r.Some? ==> r.value.Id() == id
  {
    if id == -1 then None else TypeWithIdOwn(id); TypeWithId(id)
  }

  /** Every type the table stores sits under its own id. */
  lemma TypeWithIdOwn(id: int)
    ensures TypeWithId(id).Some? ==> TypeWithId(id).value.Id() == id
  {
    if id < 30 {
      TypeWithIdOwnBelow30(id);
    } else if id < 50 {
      TypeWithIdOwnBelow50(id);
    } else if id < 70 {
      TypeWithIdOwnBelow70(id);
    } else {
      TypeWithIdOwnFrom70(id);
    }
  }

  lemma TypeWithIdOwnBelow30(id: int)
    requires id < 30
    ensures TypeWithId(id).Some? ==> TypeWithId(id).value.Id() == id
  {
  }

  lemma TypeWithIdOwnBelow50(id: int)
    requires 30 <= id < 50
    ensures TypeWithId(id).Some? ==> TypeWithId(id).value.Id() == id
  {
  }

  lemma TypeWithIdOwnBelow70(id: int)
    requires 50 <= id < 70
    ensures TypeWithId(id).Some? ==> TypeWithId(id).value.Id() == id
  {
  }

  lemma TypeWithIdOwnFrom70(id: int)
    requires 70 <= id
    ensures TypeWithId(id).Some? ==> TypeWithId(id).value.Id() == id
  {
  }

  /** Ids other than -1 are not shared, so looking up a type's own id finds that type. */
  lemma FindOwnId(t: EntityType)
    requires t.Id() != -1
    ensures FindById(t.Id()) == Some(t)
  {
    if t.Id() < 15 {
      FindOwnIdBelow15(t);
    } else if t.Id() < 30 {
      FindOwnIdBelow30(t);
    } else if t.Id() < 50 {
      FindOwnIdBelow50(t);
    } else if t.Id() < 60 {
      FindOwnIdBelow60(t);
    } else if t.Id() < 90 {
      FindOwnIdBelow90(t);
    } else {
      FindOwnIdFrom90(t);
    }
  }

  lemma FindOwnIdBelow15(t: EntityType)
    requires 0 <= t.Id() < 15
    ensures TypeWithId(t.Id()) == Some(t)
  {
    match t
    case DroppedItem =>
    case ExperienceOrb =>
    case LeashHitch =>
    case Painting =>
    case Arrow =>
    case Snowball =>
    case Fireball =>
    case SmallFireball =>
    case EnderPearl =>
    case _ => assert false;
  }

  lemma FindOwnIdBelow30(t: EntityType)
    requires 15 <= t.Id() < 30
    ensures TypeWithId(t.Id()) == Some(t)
  {
    match t
    case EnderSignal =>
    case ThrownExpBottle =>
    case ItemFrame =>
    case WitherSkull =>
    case PrimedTnt =>
    case FallingBlock =>
    case Firework =>
    case TippedArrow =>
    case SpectralArrow =>
    case ShulkerBullet =>
    case DragonFireball =>
    case _ => assert false;
  }

  lemma FindOwnIdBelow50(t: EntityType)
    requires 30 <= t.Id() < 50
    ensures TypeWithId(t.Id()) == Some(t)
  {
    match t
    case ArmorStand =>
    case MinecartCommand =>
    case Boat =>
    case MinecartRideable =>
    case MinecartChest =>
    case MinecartFurnace =>
    case MinecartTnt =>
    case MinecartHopper =>
    case MinecartMobSpawner =>
    case _ => assert false;
  }

  lemma FindOwnIdBelow60(t: EntityType)
    requires 50 <= t.Id() < 60
    ensures TypeWithId(t.Id()) == Some(t)
  {
    match t
    case Creeper =>
    case Skeleton =>
    case Spider =>
    case Giant =>
    case Zombie =>
    case Slime =>
    case Ghast =>
    case PigZombie =>
    case Enderman =>
    case CaveSpider =>
    case _ => assert false;
  }

  lemma FindOwnIdBelow90(t: EntityType)
    requires 60 <= t.Id() < 90
    ensures TypeWithId(t.Id()) == Some(t)
  {
    match t
    case Silverfish =>
    case Blaze =>
    case MagmaCube =>
    case EnderDragon =>
    case Wither =>
    case Bat =>
    case Witch =>
    case Endermite =>
    case Guardian =>
    case Shulker =>
    case _ => assert false;
  }

  lemma FindOwnIdFrom90(t: EntityType)
    requires 90 <= t.Id()
    ensures TypeWithId(t.Id()) == Some(t)
  {
    match t
    case IronGolem =>
    case Pig =>
    case Sheep =>
    case Cow =>
    case Chicken =>
    case Squid =>
    case Wolf =>
    case MushroomCow =>
    case Snowman =>
    case Ocelot =>
    case Horse =>
    case Rabbit =>
    case PolarBear =>
    case Villager =>
    case EnderCrystal =>
    case _ => assert false;
  }

  /** `ObjectTypes.findById`: nothing for -1, otherwise the object type stored under `id`. */
  function ObjectFindById(id: int): (r: Option<ObjectType>)
    ensures id == -1 ==> r.None?
    ensures r.Some? ==> r.value.Id() == id
  {
    if id == -1 then None else ObjectTypeWithId(id)
  }

  /** `ObjectTypes.getPCEntity`: the entity type paired with the object id. */
  function GetPCEntity(id: int): (r: Option<EntityType>)
    ensures r.Some? <==> ObjectFindById(id).Some?
    ensures r.Some? ==> r.value == ObjectFindById(id).value.Type()
  {
    match ObjectFindById(id)
    case None => None
    case Some(o) => Some(o.Type())
  }

  /** Object ids are not shared, so an object type's own id leads back to its entity type. */
  lemma PCEntityOfOwnId(o: ObjectType)
    ensures ObjectFindById(o.Id()) == Some(o)
    ensures GetPCEntity(o.Id()) == Some(o.Type())
  {
    match o
    case Boat =>
    case Item =>
    case AreaEffectCloud =>
    case Minecart =>
    case TntPrimed =>
    case EnderCrystal =>
    case TippedArrow =>
    case Snowball =>
    case Egg =>
    case Fireball =>
    case SmallFireball =>
    case EnderPearl =>
    case WitherSkull =>
    case ShulkerBullet =>
    case FallingBlock =>
    case ItemFrame =>
    case EnderSignal =>
    case Potion =>
    case ThrownExpBottle =>
    case Firework =>
    case Leash =>
    case ArmorStand =>
    case FishihngHook =>
    case SpectralArrow =>
    case DragonFireball =>
  }

  /** The entity table is exactly the inverse of `Id` away from -1. */
  lemma FindByIdExactly(id: int, t: EntityType)
    ensures FindById(id) == Some(t) <==> id != -1 && t.Id() == id
  {
    if id != -1 && t.Id() == id {
      FindOwnId(t);
    }
  }

  /** `getTypeFromId`: the object table when `isObject`, the entity table otherwise, falling back to `Entity` on a miss. */
  function GetTypeFromId(typeId: int, isObject: bool): (r: EntityType)
    ensures isObject && GetPCEntity(typeId).None? ==> r == Entity
    ensures !isObject && FindById(typeId).None? ==> r == Entity
    ensures isObject && GetPCEntity(typeId).Some? ==> r == GetPCEntity(typeId).value
    ensures !isObject && FindById(typeId).Some? ==> r == FindById(typeId).value && r.Id() == typeId
  {
    var found := if isObject then GetPCEntity(typeId) else FindById(typeId);
    found.GetOr(Entity)
  }
}
