/** The record shapes of the app: languages, plant records and user statistics. */
module Types {
  /** The three display languages, 'en' | 'pt' | 'es'. */
  datatype Language = En | Pt | Es

  datatype PlantStage = Seed | Sprout | Sapling | Mature | Ancient

  datatype Rarity = Common | Rare | Legendary | Mythic

  /** One entry of the fixed catalogue a session grows a plant from. */
  datatype PlantTemplate = PlantTemplate(
    name: string,
    scientificName: string,
    rarity: Rarity,
    imageUrl: string)

  /** A grown plant in the garden; `focusMinutes` is the session length that grew it. */
  datatype Plant = Plant(
    id: string,
    name: string,
    scientificName: string,
    lore: string,
    stage: PlantStage,
    rarity: Rarity,
    focusMinutes: nat,
    imageUrl: string,
    discoveredAt: int)

  /** Cumulative statistics; `totalFocusTime` is in minutes. */
  datatype UserStats = UserStats(
    totalFocusTime: nat,
    sunlight: nat,
    currentStreak: nat,
    bestStreak: nat,
    plantsGrown: nat)
}
