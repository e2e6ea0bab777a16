/** The 1.13 entity and object type tables: each entity type has a network id (-1 for the abstract ones)
  * and a parent, every chain of parents ending at `Entity`; object types pair an object id with an entity type. */
module Entity1_13Types {
  import opened Wrappers

  datatype EntityType =
    | Entity
    | AreaEffectCloud
    | EnderCrystal
    | EvocationFangs
    | XpOrb
    | EyeOfEnderSignal
    | FallingBlock
    | FireworksRocket
    | Item
    | LlamaSpit
    | Tnt
    | ShulkerBullet
    | FishingBobber
    | LivingEntity
    | ArmorStand
    | Player
    | AbstractInsentient
    | EnderDragon
    | AbstractCreature
    | AbstractAgeable
    | Villager
    | AbstractAnimal
    | Chicken
    | Cow
    | Mooshroom
    | Pig
    | PolarBear
    | Rabbit
    | Sheep
    | Turtle
    | AbstractTameableAnimal
    | Ocelot
    | Wolf
    | AbstractParrot
    | Parrot
    | AbstractHorse
    | ChestedHorse
    | Donkey
    | Mule
    | Llama
    | Horse
    | SkeletonHorse
    | ZombieHorse
    | AbstractGolem
    | Snowman
    | VillagerGolem
    | Shulker
    | AbstractFishes
    | CodMob
    | PufferFish
    | SalmonMob
    | TropicalFish
    | AbstractMonster
    | Blaze
    | Creeper
    | Endermite
    | Enderman
    | Giant
    | Silverfish
    | Vex
    | Witch
    | Wither
    | AbstractIllagerBase
    | AbstractEvoIlluIllager
    | EvocationIllager
    | IllusionIllager
    | VindicationIllager
    | AbstractSkeleton
    | Skeleton
    | Stray
    | WitherSkeleton
    | Guardian
    | ElderGuardian
    | Spider
    | CaveSpider
    | Zombie
    | Drowned
    | Husk
    | ZombiePigman
    | ZombieVillager
    | AbstractFlying
    | Ghast
    | Phantom
    | AbstractAmbient
    | Bat
    | AbstractWatermob
    | Squid
    | Slime
    | MagmaCube
    | AbstractHanging
    | LeashKnot
    | ItemFrame
    | Painting
    | AbstractLightning
    | LightningBolt
    | AbstractArrow
    | Arrow
    | SpectralArrow
    | Trident
    | AbstractFireball
    | DragonFireball
    | Fireball
    | SmallFireball
    | WitherSkull
    | ProjectileAbstract
    | Snowball
    | EnderPearl
    | Egg
    | Potion
    | XpBottle
    | MinecartAbstract
    | ChestedMinecartAbstract
    | ChestMinecart
    | HopperMinecart
    | Minecart
    | FurnaceMinecart
    | CommandblockMinecart
    | TntMinecart
    | SpawnerMinecart
    | Boat
  {
    function Id(): int {
      match this
      case Entity => -1
      case AreaEffectCloud => 0
      case EnderCrystal => 16
      case EvocationFangs => 20
      case XpOrb => 22
      case EyeOfEnderSignal => 23
      case FallingBlock => 24
      case FireworksRocket => 25
      case Item => 32
      case LlamaSpit => 37
      case Tnt => 55
      case ShulkerBullet => 60
      case FishingBobber => 93
      case LivingEntity => -1
      case ArmorStand => 1
      case Player => 92
      case AbstractInsentient => -1
      case EnderDragon => 17
      case AbstractCreature => -1
      case AbstractAgeable => -1
      case Villager => 79
      case AbstractAnimal => -1
      case Chicken => 7
      case Cow => 9
      case Mooshroom => 47
      case Pig => 51
      case PolarBear => 54
      case Rabbit => 56
      case Sheep => 58
      case Turtle => 73
      case AbstractTameableAnimal => -1
      case Ocelot => 48
      case Wolf => 86
      case AbstractParrot => -1
      case Parrot => 50
      case AbstractHorse => -1
      case ChestedHorse => -1
      case Donkey => 11
      case Mule => 46
      case Llama => 36
      case Horse => 29
      case SkeletonHorse => 63
      case ZombieHorse => 88
      case AbstractGolem => -1
      case Snowman => 66
      case VillagerGolem => 80
      case Shulker => 59
      case AbstractFishes => -1
      case CodMob => 8
      case PufferFish => 52
      case SalmonMob => 57
      case TropicalFish => 72
      case AbstractMonster => -1
      case Blaze => 4
      case Creeper => 10
      case Endermite => 19
      case Enderman => 18
      case Giant => 27
      case Silverfish => 61
      case Vex => 78
      case Witch => 82
      case Wither => 83
      case AbstractIllagerBase => -1
      case AbstractEvoIlluIllager => -1
      case EvocationIllager => 21
      case IllusionIllager => 31
      case VindicationIllager => 81
      case AbstractSkeleton => -1
      case Skeleton => 62
      case Stray => 71
      case WitherSkeleton => 84
      case Guardian => 28
      case ElderGuardian => 15
      case Spider => 69
      case CaveSpider => 6
      case Zombie => 87
      case Drowned => 14
      case Husk => 30
      case ZombiePigman => 53
      case ZombieVillager => 89
      case AbstractFlying => -1
      case Ghast => 26
      case Phantom => 90
      case AbstractAmbient => -1
      case Bat => 3
      case AbstractWatermob => -1
      case Squid => 70
      case Slime => 64
      case MagmaCube => 38
      case AbstractHanging => -1
      case LeashKnot => 35
      case ItemFrame => 33
      case Painting => 49
      case AbstractLightning => -1
      case LightningBolt => 91
      case AbstractArrow => -1
      case Arrow => 2
      case SpectralArrow => 68
      case Trident => 94
      case AbstractFireball => -1
      case DragonFireball => 13
      case Fireball => 34
      case SmallFireball => 65
      case WitherSkull => 85
      case ProjectileAbstract => -1
      case Snowball => 67
      case EnderPearl => 75
      case Egg => 74
      case Potion => 77
      case XpBottle => 76
      case MinecartAbstract => -1
      case ChestedMinecartAbstract => -1
      case ChestMinecart => 40
      case HopperMinecart => 43
      case Minecart => 39
      case FurnaceMinecart => 42
      case CommandblockMinecart => 41
      case TntMinecart => 45
      case SpawnerMinecart => 44
      case Boat => 5
    }

    function Parent(): Option<EntityType> {
      match this
      case Entity => None
      case AreaEffectCloud => Some(EntityType.Entity)
      case EnderCrystal => Some(EntityType.Entity)
      case EvocationFangs => Some(EntityType.Entity)
      case XpOrb => Some(EntityType.Entity)
      case EyeOfEnderSignal => Some(EntityType.Entity)
      case FallingBlock => Some(EntityType.Entity)
      case FireworksRocket => Some(EntityType.Entity)
      case Item => Some(EntityType.Entity)
      case LlamaSpit => Some(EntityType.Entity)
      case Tnt => Some(EntityType.Entity)
      case ShulkerBullet => Some(EntityType.Entity)
      case FishingBobber => Some(EntityType.Entity)
      case LivingEntity => Some(EntityType.Entity)
      case ArmorStand => Some(EntityType.LivingEntity)
      case Player => Some(EntityType.LivingEntity)
      case AbstractInsentient => Some(EntityType.LivingEntity)
      case EnderDragon => Some(EntityType.AbstractInsentient)
      case AbstractCreature => Some(EntityType.AbstractInsentient)
      case AbstractAgeable => Some(EntityType.AbstractCreature)
      case Villager => Some(EntityType.AbstractAgeable)
      case AbstractAnimal => Some(EntityType.AbstractAgeable)
      case Chicken => Some(EntityType.AbstractAnimal)
      case Cow => Some(EntityType.AbstractAnimal)
      case Mooshroom => Some(EntityType.Cow)
      case Pig => Some(EntityType.AbstractAnimal)
      case PolarBear => Some(EntityType.AbstractAnimal)
      case Rabbit => Some(EntityType.AbstractAnimal)
      case Sheep => Some(EntityType.AbstractAnimal)
      case Turtle => Some(EntityType.AbstractAnimal)
      case AbstractTameableAnimal => Some(EntityType.AbstractAnimal)
      case Ocelot => Some(EntityType.AbstractTameableAnimal)
      case Wolf => Some(EntityType.AbstractTameableAnimal)
      case AbstractParrot => Some(EntityType.AbstractTameableAnimal)
      case Parrot => Some(EntityType.AbstractParrot)
      case AbstractHorse => Some(EntityType.AbstractAnimal)
      case ChestedHorse => Some(EntityType.AbstractHorse)
      case Donkey => Some(EntityType.ChestedHorse)
      case Mule => Some(EntityType.ChestedHorse)
      case Llama => Some(EntityType.ChestedHorse)
      case Horse => Some(EntityType.AbstractHorse)
      case SkeletonHorse => Some(EntityType.AbstractHorse)
      case ZombieHorse => Some(EntityType.AbstractHorse)
      case AbstractGolem => Some(EntityType.AbstractCreature)
      case Snowman => Some(EntityType.AbstractGolem)
      case VillagerGolem => Some(EntityType.AbstractGolem)
      case Shulker => Some(EntityType.AbstractGolem)
      case AbstractFishes => Some(EntityType.AbstractCreature)
      case CodMob => Some(EntityType.AbstractFishes)
      case PufferFish => Some(EntityType.AbstractFishes)
      case SalmonMob => Some(EntityType.AbstractFishes)
      case TropicalFish => Some(EntityType.AbstractFishes)
      case AbstractMonster => Some(EntityType.AbstractCreature)
      case Blaze => Some(EntityType.AbstractMonster)
      case Creeper => Some(EntityType.AbstractMonster)
      case Endermite => Some(EntityType.AbstractMonster)
      case Enderman => Some(EntityType.AbstractMonster)
      case Giant => Some(EntityType.AbstractMonster)
      case Silverfish => Some(EntityType.AbstractMonster)
      case Vex => Some(EntityType.AbstractMonster)
      case Witch => Some(EntityType.AbstractMonster)
      case Wither => Some(EntityType.AbstractMonster)
      case AbstractIllagerBase => Some(EntityType.AbstractMonster)
      case AbstractEvoIlluIllager => Some(EntityType.AbstractIllagerBase)
      case EvocationIllager => Some(EntityType.AbstractEvoIlluIllager)
      case IllusionIllager => Some(EntityType.AbstractEvoIlluIllager)
      case VindicationIllager => Some(EntityType.AbstractIllagerBase)
      case AbstractSkeleton => Some(EntityType.AbstractMonster)
      case Skeleton => Some(EntityType.AbstractSkeleton)
      case Stray => Some(EntityType.AbstractSkeleton)
      case WitherSkeleton => Some(EntityType.AbstractSkeleton)
      case Guardian => Some(EntityType.AbstractMonster)
      case ElderGuardian => Some(EntityType.Guardian)
      case Spider => Some(EntityType.AbstractMonster)
      case CaveSpider => Some(EntityType.Spider)
      case Zombie => Some(EntityType.AbstractMonster)
      case Drowned => Some(EntityType.Zombie)
      case Husk => Some(EntityType.Zombie)
      case ZombiePigman => Some(EntityType.Zombie)
      case ZombieVillager => Some(EntityType.Zombie)
      case AbstractFlying => Some(EntityType.AbstractInsentient)
      case Ghast => Some(EntityType.AbstractFlying)
      case Phantom => Some(EntityType.AbstractFlying)
      case AbstractAmbient => Some(EntityType.AbstractInsentient)
      case Bat => Some(EntityType.AbstractAmbient)
      case AbstractWatermob => Some(EntityType.AbstractInsentient)
      case Squid => Some(EntityType.AbstractWatermob)
      case Slime => Some(EntityType.AbstractInsentient)
      case MagmaCube => Some(EntityType.Slime)
      case AbstractHanging => Some(EntityType.Entity)
      case LeashKnot => Some(EntityType.AbstractHanging)
      case ItemFrame => Some(EntityType.AbstractHanging)
      case Painting => Some(EntityType.AbstractHanging)
      case AbstractLightning => Some(EntityType.Entity)
      case LightningBolt => Some(EntityType.AbstractLightning)
      case AbstractArrow => Some(EntityType.Entity)
      case Arrow => Some(EntityType.AbstractArrow)
      case SpectralArrow => Some(EntityType.AbstractArrow)
      case Trident => Some(EntityType.AbstractArrow)
      case AbstractFireball => Some(EntityType.Entity)
      case DragonFireball => Some(EntityType.AbstractFireball)
      case Fireball => Some(EntityType.AbstractFireball)
      case SmallFireball => Some(EntityType.AbstractFireball)
      case WitherSkull => Some(EntityType.AbstractFireball)
      case ProjectileAbstract => Some(EntityType.Entity)
      case Snowball => Some(EntityType.ProjectileAbstract)
      case EnderPearl => Some(EntityType.ProjectileAbstract)
      case Egg => Some(EntityType.ProjectileAbstract)
      case Potion => Some(EntityType.ProjectileAbstract)
      case XpBottle => Some(EntityType.ProjectileAbstract)
      case MinecartAbstract => Some(EntityType.Entity)
      case ChestedMinecartAbstract => Some(EntityType.MinecartAbstract)
      case ChestMinecart => Some(EntityType.ChestedMinecartAbstract)
      case HopperMinecart => Some(EntityType.ChestedMinecartAbstract)
      case Minecart => Some(EntityType.MinecartAbstract)
      case FurnaceMinecart => Some(EntityType.MinecartAbstract)
      case CommandblockMinecart => Some(EntityType.MinecartAbstract)
      case TntMinecart => Some(EntityType.MinecartAbstract)
      case SpawnerMinecart => Some(EntityType.MinecartAbstract)
      case Boat => Some(EntityType.Entity)
    }

    /** Position in declaration order; a parent is always declared before its children. */
    function Ordinal(): nat {
      match this
      case Entity => 0
      case AreaEffectCloud => 1
      case EnderCrystal => 2
      case EvocationFangs => 3
      case XpOrb => 4
      case EyeOfEnderSignal => 5
      case FallingBlock => 6
      case FireworksRocket => 7
      case Item => 8
      case LlamaSpit => 9
      case Tnt => 10
      case ShulkerBullet => 11
      case FishingBobber => 12
      case LivingEntity => 13
      case ArmorStand => 14
      case Player => 15
      case AbstractInsentient => 16
      case EnderDragon => 17
      case AbstractCreature => 18
      case AbstractAgeable => 19
      case Villager => 20
      case AbstractAnimal => 21
      case Chicken => 22
      case Cow => 23
      case Mooshroom => 24
      case Pig => 25
      case PolarBear => 26
      case Rabbit => 27
      case Sheep => 28
      case Turtle => 29
      case AbstractTameableAnimal => 30
      case Ocelot => 31
      case Wolf => 32
      case AbstractParrot => 33
      case Parrot => 34
      case AbstractHorse => 35
      case ChestedHorse => 36
      case Donkey => 37
      case Mule => 38
      case Llama => 39
      case Horse => 40
      case SkeletonHorse => 41
      case ZombieHorse => 42
      case AbstractGolem => 43
      case Snowman => 44
      case VillagerGolem => 45
      case Shulker => 46
      case AbstractFishes => 47
      case CodMob => 48
      case PufferFish => 49
      case SalmonMob => 50
      case TropicalFish => 51
      case AbstractMonster => 52
      case Blaze => 53
      case Creeper => 54
      case Endermite => 55
      case Enderman => 56
      case Giant => 57
      case Silverfish => 58
      case Vex => 59
      case Witch => 60
      case Wither => 61
      case AbstractIllagerBase => 62
      case AbstractEvoIlluIllager => 63
      case EvocationIllager => 64
      case IllusionIllager => 65
      case VindicationIllager => 66
      case AbstractSkeleton => 67
      case Skeleton => 68
      case Stray => 69
      case WitherSkeleton => 70
      case Guardian => 71
      case ElderGuardian => 72
      case Spider => 73
      case CaveSpider => 74
      case Zombie => 75
      case Drowned => 76
      case Husk => 77
      case ZombiePigman => 78
      case ZombieVillager => 79
      case AbstractFlying => 80
      case Ghast => 81
      case Phantom => 82
      case AbstractAmbient => 83
      case Bat => 84
      case AbstractWatermob => 85
      case Squid => 86
      case Slime => 87
      case MagmaCube => 88
      case AbstractHanging => 89
      case LeashKnot => 90
      case ItemFrame => 91
      case Painting => 92
      case AbstractLightning => 93
      case LightningBolt => 94
      case AbstractArrow => 95
      case Arrow => 96
      case SpectralArrow => 97
      case Trident => 98
      case AbstractFireball => 99
      case DragonFireball => 100
      case Fireball => 101
      case SmallFireball => 102
      case WitherSkull => 103
      case ProjectileAbstract => 104
      case Snowball => 105
      case EnderPearl => 106
      case Egg => 107
      case Potion => 108
      case XpBottle => 109
      case MinecartAbstract => 110
      case ChestedMinecartAbstract => 111
      case ChestMinecart => 112
      case HopperMinecart => 113
      case Minecart => 114
      case FurnaceMinecart => 115
      case CommandblockMinecart => 116
      case TntMinecart => 117
      case SpawnerMinecart => 118
      case Boat => 119
    }
  }

  /** `EntityType.values()`, in declaration order. */
  const Values: seq<EntityType> := [
    EntityType.Entity,
    EntityType.AreaEffectCloud,
    EntityType.EnderCrystal,
    EntityType.EvocationFangs,
    EntityType.XpOrb,
    EntityType.EyeOfEnderSignal,
    EntityType.FallingBlock,
    EntityType.FireworksRocket,
    EntityType.Item,
    EntityType.LlamaSpit,
    EntityType.Tnt,
    EntityType.ShulkerBullet,
    EntityType.FishingBobber,
    EntityType.LivingEntity,
    EntityType.ArmorStand,
    EntityType.Player,
    EntityType.AbstractInsentient,
    EntityType.EnderDragon,
    EntityType.AbstractCreature,
    EntityType.AbstractAgeable,
    EntityType.Villager,
    EntityType.AbstractAnimal,
    EntityType.Chicken,
    EntityType.Cow,
    EntityType.Mooshroom,
    EntityType.Pig,
    EntityType.PolarBear,
    EntityType.Rabbit,
    EntityType.Sheep,
    EntityType.Turtle,
    EntityType.AbstractTameableAnimal,
    EntityType.Ocelot,
    EntityType.Wolf,
    EntityType.AbstractParrot,
    EntityType.Parrot,
    EntityType.AbstractHorse,
    EntityType.ChestedHorse,
    EntityType.Donkey,
    EntityType.Mule,
    EntityType.Llama,
    EntityType.Horse,
    EntityType.SkeletonHorse,
    EntityType.ZombieHorse,
    EntityType.AbstractGolem,
    EntityType.Snowman,
    EntityType.VillagerGolem,
    EntityType.Shulker,
    EntityType.AbstractFishes,
    EntityType.CodMob,
    EntityType.PufferFish,
    EntityType.SalmonMob,
    EntityType.TropicalFish,
    EntityType.AbstractMonster,
    EntityType.Blaze,
    EntityType.Creeper,
    EntityType.Endermite,
    EntityType.Enderman,
    EntityType.Giant,
    EntityType.Silverfish,
    EntityType.Vex,
    EntityType.Witch,
    EntityType.Wither,
    EntityType.AbstractIllagerBase,
    EntityType.AbstractEvoIlluIllager,
    EntityType.EvocationIllager,
    EntityType.IllusionIllager,
    EntityType.VindicationIllager,
    EntityType.AbstractSkeleton,
    EntityType.Skeleton,
    EntityType.Stray,
    EntityType.WitherSkeleton,
    EntityType.Guardian,
    EntityType.ElderGuardian,
    EntityType.Spider,
    EntityType.CaveSpider,
    EntityType.Zombie,
    EntityType.Drowned,
    EntityType.Husk,
    EntityType.ZombiePigman,
    EntityType.ZombieVillager,
    EntityType.AbstractFlying,
    EntityType.Ghast,
    EntityType.Phantom,
    EntityType.AbstractAmbient,
    EntityType.Bat,
    EntityType.AbstractWatermob,
    EntityType.Squid,
    EntityType.Slime,
    EntityType.MagmaCube,
    EntityType.AbstractHanging,
    EntityType.LeashKnot,
    EntityType.ItemFrame,
    EntityType.Painting,
    EntityType.AbstractLightning,
    EntityType.LightningBolt,
    EntityType.AbstractArrow,
    EntityType.Arrow,
    EntityType.SpectralArrow,
    EntityType.Trident,
    EntityType.AbstractFireball,
    EntityType.DragonFireball,
    EntityType.Fireball,
    EntityType.SmallFireball,
    EntityType.WitherSkull,
    EntityType.ProjectileAbstract,
    EntityType.Snowball,
    EntityType.EnderPearl,
    EntityType.Egg,
    EntityType.Potion,
    EntityType.XpBottle,
    EntityType.MinecartAbstract,
    EntityType.ChestedMinecartAbstract,
    EntityType.ChestMinecart,
    EntityType.HopperMinecart,
    EntityType.Minecart,
    EntityType.FurnaceMinecart,
    EntityType.CommandblockMinecart,
    EntityType.TntMinecart,
    EntityType.SpawnerMinecart,
    EntityType.Boat
  ]

  datatype ObjectType =
    | Boat
    | Item
    | AreaEffectCloud
    | Minecart
    | TntPrimed
    | EnderCrystal
    | TippedArrow
    | Snowball
    | Egg
    | Fireball
    | SmallFireball
    | EnderPearl
    | WitherSkull
    | ShulkerBullet
    | LiamaSpit
    | FallingBlock
    | ItemFrame
    | EnderSignal
    | Potion
    | ThrownExpBottle
    | Firework
    | Leash
    | ArmorStand
    | EvocationFangs
    | FishihngHook
    | SpectralArrow
    | DragonFireball
  {
    function Id(): int {
      match this
      case Boat => 1
      case Item => 2
      case AreaEffectCloud => 3
      case Minecart => 10
      case TntPrimed => 50
      case EnderCrystal => 51
      case TippedArrow => 60
      case Snowball => 61
      case Egg => 62
      case Fireball => 63
      case SmallFireball => 64
      case EnderPearl => 65
      case WitherSkull => 66
      case ShulkerBullet => 67
      case LiamaSpit => 68
      case FallingBlock => 70
      case ItemFrame => 71
      case EnderSignal => 72
      case Potion => 73
      case ThrownExpBottle => 75
      case Firework => 76
      case Leash => 77
      case ArmorStand => 78
      case EvocationFangs => 79
      case FishihngHook => 90
      case SpectralArrow => 91
      case DragonFireball => 93
    }

    function Type(): EntityType {
      match this
      case Boat => EntityType.Boat
      case Item => EntityType.Item
      case AreaEffectCloud => EntityType.AreaEffectCloud
      case Minecart => EntityType.MinecartAbstract
      case TntPrimed => EntityType.Tnt
      case EnderCrystal => EntityType.EnderCrystal
      case TippedArrow => EntityType.Arrow
      case Snowball => EntityType.Snowball
      case Egg => EntityType.Egg
      case Fireball => EntityType.Fireball
      case SmallFireball => EntityType.SmallFireball
      case EnderPearl => EntityType.EnderPearl
      case WitherSkull => EntityType.WitherSkull
      case ShulkerBullet => EntityType.ShulkerBullet
      case LiamaSpit => EntityType.LlamaSpit
      case FallingBlock => EntityType.FallingBlock
      case ItemFrame => EntityType.ItemFrame
      case EnderSignal => EntityType.EyeOfEnderSignal
      case Potion => EntityType.Potion
      case ThrownExpBottle => EntityType.XpBottle
      case Firework => EntityType.FireworksRocket
      case Leash => EntityType.LeashKnot
      case ArmorStand => EntityType.ArmorStand
      case EvocationFangs => EntityType.EvocationFangs
      case FishihngHook => EntityType.FishingBobber
      case SpectralArrow => EntityType.SpectralArrow
      case DragonFireball => EntityType.DragonFireball
    }
  }

  /** `ObjectTypes.values()`, in declaration order. */
  const ObjectValues: seq<ObjectType> := [
    ObjectType.Boat,
    ObjectType.Item,
    ObjectType.AreaEffectCloud,
    ObjectType.Minecart,
    ObjectType.TntPrimed,
    ObjectType.EnderCrystal,
    ObjectType.TippedArrow,
    ObjectType.Snowball,
    ObjectType.Egg,
    ObjectType.Fireball,
    ObjectType.SmallFireball,
    ObjectType.EnderPearl,
    ObjectType.WitherSkull,
    ObjectType.ShulkerBullet,
    ObjectType.LiamaSpit,
    ObjectType.FallingBlock,
    ObjectType.ItemFrame,
    ObjectType.EnderSignal,
    ObjectType.Potion,
    ObjectType.ThrownExpBottle,
    ObjectType.Firework,
    ObjectType.Leash,
    ObjectType.ArmorStand,
    ObjectType.EvocationFangs,
    ObjectType.FishihngHook,
    ObjectType.SpectralArrow,
    ObjectType.DragonFireball
  ]

  /** Every type's parent is declared before it, so walking up the parents ends. */
  lemma ParentDeclaredFirst(t: EntityType)
    ensures t.Parent().Some? ==> t.Parent().value.Ordinal() < t.Ordinal()
  {
    if t.Ordinal() < 10 {
      ParentDeclaredFirstBelow10(t);
    } else if t.Ordinal() < 20 {
      ParentDeclaredFirstBelow20(t);
    } else if t.Ordinal() < 30 {
      ParentDeclaredFirstBelow30(t);
    } else if t.Ordinal() < 40 {
      ParentDeclaredFirstBelow40(t);
    } else if t.Ordinal() < 50 {
      ParentDeclaredFirstBelow50(t);
    } else if t.Ordinal() < 60 {
      ParentDeclaredFirstBelow60(t);
    } else if t.Ordinal() < 70 {
      ParentDeclaredFirstBelow70(t);
    } else if t.Ordinal() < 80 {
      ParentDeclaredFirstBelow80(t);
    } else if t.Ordinal() < 90 {
      ParentDeclaredFirstBelow90(t);
    } else if t.Ordinal() < 100 {
      ParentDeclaredFirstBelow100(t);
    } else if t.Ordinal() < 110 {
      ParentDeclaredFirstBelow110(t);
    } else {
      ParentDeclaredFirstBelow120(t);
    }
  }

  lemma ParentDeclaredFirstBelow10(t: EntityType)
    requires t.Ordinal() < 10
    ensures t.Parent().Some? ==> t.Parent().value.Ordinal() < t.Ordinal()
  {
  }

  lemma ParentDeclaredFirstBelow20(t: EntityType)
    requires 10 <= t.Ordinal() < 20
    ensures t.Parent().Some? ==> t.Parent().value.Ordinal() < t.Ordinal()
  {
  }

  lemma ParentDeclaredFirstBelow30(t: EntityType)
    requires 20 <= t.Ordinal() < 30
    ensures t.Parent().Some? ==> t.Parent().value.Ordinal() < t.Ordinal()
  {
  }

  lemma ParentDeclaredFirstBelow40(t: EntityType)
    requires 30 <= t.Ordinal() < 40
    ensures t.Parent().Some? ==> t.Parent().value.Ordinal() < t.Ordinal()
  {
  }

  lemma ParentDeclaredFirstBelow50(t: EntityType)
    requires 40 <= t.Ordinal() < 50
    ensures t.Parent().Some? ==> t.Parent().value.Ordinal() < t.Ordinal()
  {
  }

  lemma ParentDeclaredFirstBelow60(t: EntityType)
    requires 50 <= t.Ordinal() < 60
    ensures t.Parent().Some? ==> t.Parent().value.Ordinal() < t.Ordinal()
  {
  }

  lemma ParentDeclaredFirstBelow70(t: EntityType)
    requires 60 <= t.Ordinal() < 70
    ensures t.Parent().Some? ==> t.Parent().value.Ordinal() < t.Ordinal()
  {
  }

  lemma ParentDeclaredFirstBelow80(t: EntityType)
    requires 70 <= t.Ordinal() < 80
    ensures t.Parent().Some? ==> t.Parent().value.Ordinal() < t.Ordinal()
  {
  }

  lemma ParentDeclaredFirstBelow90(t: EntityType)
    requires 80 <= t.Ordinal() < 90
    ensures t.Parent().Some? ==> t.Parent().value.Ordinal() < t.Ordinal()
  {
  }

  lemma ParentDeclaredFirstBelow100(t: EntityType)
    requires 90 <= t.Ordinal() < 100
    ensures t.Parent().Some? ==> t.Parent().value.Ordinal() < t.Ordinal()
  {
  }

  lemma ParentDeclaredFirstBelow110(t: EntityType)
    requires 100 <= t.Ordinal() < 110
    ensures t.Parent().Some? ==> t.Parent().value.Ordinal() < t.Ordinal()
  {
  }

  lemma ParentDeclaredFirstBelow120(t: EntityType)
    requires 110 <= t.Ordinal()
    ensures t.Parent().Some? ==> t.Parent().value.Ordinal() < t.Ordinal()
  {
  }

  /** `t` is `self` or lies on the chain of parents above `self`. */
  function OnParentChain(self: EntityType, t: EntityType): bool
    decreases self.Ordinal()
  {
    ParentDeclaredFirst(self);
    self == t || (self.Parent().Some? && OnParentChain(self.Parent().value, t))
  }

  /** `isOrHasParent`: walks up from `self` until it meets `t` or the chain ends. */
  method IsOrHasParent(self: EntityType, t: EntityType) returns (r: bool)
    ensures r == OnParentChain(self, t)
  {
    var parent := Some(self);
    while parent.Some?
      invariant if parent.Some? then OnParentChain(self, t) == OnParentChain(parent.value, t) else !OnParentChain(self, t)
      decreases if parent.Some? then parent.value.Ordinal() + 1 else 0
    {
      if parent.value == t {
        return true;
      }
      ParentDeclaredFirst(parent.value);
      parent := parent.value.Parent();
    }
    return false;
  }

  /** `Entity` is the only type without a parent. */
  lemma OnlyEntityIsRoot(t: EntityType)
    ensures t.Parent().None? <==> t == Entity
  {
  }

  /** Every type's parent chain reaches `Entity`, so `isOrHasParent(ENTITY)` holds for all of them. */
  lemma {:induction false} ChainReachesEntity(t: EntityType)
    ensures OnParentChain(t, Entity)
    decreases t.Ordinal()
  {
    if t != Entity {
      OnlyEntityIsRoot(t);
      ParentDeclaredFirst(t);
      ChainReachesEntity(t.Parent().value);
    }
  }

  /** Lying on a parent chain is transitive. */
  lemma {:induction false} ChainTransitive(a: EntityType, b: EntityType, c: EntityType)
    requires OnParentChain(a, b) && OnParentChain(b, c)
    ensures OnParentChain(a, c)
    decreases a.Ordinal()
  {
    if a != b {
      ParentDeclaredFirst(a);
      ChainTransitive(a.Parent().value, b, c);
    }
  }

  /** `is(types...)`: some argument is this very type. */
  method IsAnyOf(self: EntityType, types: seq<EntityType>) returns (r: bool)
    ensures r <==> self in types
  {
    for i := 0 to |types|
      invariant self !in types[..i]
    {
      if types[i] == self {
        return true;
      }
    }
    return false;
  }

  /** The id of an entity type and of an object type, as functions to hand to the scans below. */
  function TypeId(t: EntityType): int { t.Id() }
  function ObjectId(o: ObjectType): int { o.Id() }

  /** Index of the first of `xs` whose id, as `idOf` reads it, is `id`. */
  function FirstIndexWithId<T>(xs: seq<T>, idOf: T -> int, id: int): (r: Option<nat>)
    ensures r.Some? ==> r.value < |xs| && idOf(xs[r.value]) == id && forall j :: 0 <= j < r.value ==> idOf(xs[j]) != id
    ensures r.None? ==> forall j :: 0 <= j < |xs| ==> idOf(xs[j]) != id
  {
    if |xs| == 0 then None
    else if idOf(xs[0]) == id then Some(0)
    else match FirstIndexWithId(xs[1..], idOf, id) case None => None case Some(k) => Some(k + 1)
  }

  /** What `findById` answers: nothing for -1, otherwise the first declared type carrying `id`. */
  function FirstDeclaredWithId(id: int): (r: Option<EntityType>)
    ensures r.Some? ==> id != -1 && r.value.Id() == id && r.value in Values
    ensures r.None? ==> id == -1 || forall t :: t in Values ==> t.Id() != id
  {
    if id == -1 then None
    else match FirstIndexWithId(Values, TypeId, id) case None => None case Some(k) => Some(Values[k])
  }

  /** The scan both `findById` methods perform over their declared values. */
  method ScanIds<T>(xs: seq<T>, idOf: T -> int, id: int) returns (r: Option<nat>)
    ensures r == FirstIndexWithId(xs, idOf, id)
  {
    for i := 0 to |xs|
      invariant forall j :: 0 <= j < i ==> idOf(xs[j]) != id
    {
      if idOf(xs[i]) == id {
        return Some(i);
      }
    }
    return None;
  }

  /** `EntityType.findById`: nothing for -1, otherwise a scan of the declared types. */
  method FindById(id: int) returns (r: Option<EntityType>)
    ensures r == FirstDeclaredWithId(id)
    ensures r.Some? ==> id != -1 && r.value.Id() == id
  {
    if id == -1 {
      return None;
    }
    var index := ScanIds(Values, TypeId, id);
    if index.None? {
      return None;
    }
    return Some(Values[index.value]);
  }

  /** What `ObjectTypes.findById` answers: nothing for -1, otherwise the first declared object type carrying `id`. */
  function FirstDeclaredObjectWithId(id: int): (r: Option<ObjectType>)
    ensures r.Some? ==> id != -1 && r.value.Id() == id && r.value in ObjectValues
    ensures r.None? ==> id == -1 || forall o :: o in ObjectValues ==> o.Id() != id
  {
    if id == -1 then None
    else match FirstIndexWithId(ObjectValues, ObjectId, id) case None => None case Some(k) => Some(ObjectValues[k])
  }

  /** `ObjectTypes.findById`: nothing for -1, otherwise a scan of the declared object types. */
  method ObjectFindById(id: int) returns (r: Option<ObjectType>)
    ensures r == FirstDeclaredObjectWithId(id)
    ensures r.Some? ==> id != -1 && r.value.Id() == id
  {
    if id == -1 {
      return None;
    }
    var index := ScanIds(ObjectValues, ObjectId, id);
    if index.None? {
      return None;
    }
    return Some(ObjectValues[index.value]);
  }

  /** `ObjectTypes.getPCEntity`: the entity type paired with the object id, absent for an unknown id or -1. */
  method GetPCEntity(id: int) returns (r: Option<EntityType>)
    ensures r.Some? <==> FirstDeclaredObjectWithId(id).Some?
    ensures r.Some? ==> r.value == FirstDeclaredObjectWithId(id).value.Type()
    ensures id == -1 ==> r.None?
  {
    var output := ObjectFindById(id);
    if output.None? {
      return None;
    }
    return Some(output.value.Type());
  }

  /** `getTypeFromId`: the object table when `isObject`, the entity table otherwise, falling back to `Entity`. */
  method GetTypeFromId(typeId: int, isObject: bool) returns (r: EntityType)
    ensures isObject && FirstDeclaredObjectWithId(typeId).Some? ==> r == FirstDeclaredObjectWithId(typeId).value.Type()
    ensures !isObject && FirstDeclaredWithId(typeId).Some? ==> r == FirstDeclaredWithId(typeId).value
    ensures (if isObject then FirstDeclaredObjectWithId(typeId).None? else FirstDeclaredWithId(typeId).None?) ==> r == Entity
  {
    var found: Option<EntityType>;
    if isObject {
      found := GetPCEntity(typeId);
    } else {
      found := FindById(typeId);
    }
    if found.None? {
      return Entity;
    }
    return found.value;
  }
}
