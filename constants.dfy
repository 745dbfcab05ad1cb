/** The app's fixed configuration: session lengths, starting statistics, the plant catalogue. */
module Constants {
  import opened Types

  /** Default focus session length, in minutes. */
  const FocusDuration: nat := 25
  const ShortBreak: nat := 5
  const LongBreak: nat := 15

  const InitialStats: UserStats := UserStats(
    totalFocusTime := 0,
    sunlight := 50,
    currentStreak := 0,
    bestStreak := 0,
    plantsGrown := 0)

  const PlantTemplates: seq<PlantTemplate> := [
    PlantTemplate("Sun-Kissed Fern", "Pteridophyta Solaris", Common,
      "https://images.unsplash.com/photo-1515444744559-7be63e1600de?auto=format&fit=crop&q=80&w=400"),
    PlantTemplate("Azure Moonbloom", "Luna Floris", Rare,
      "https://images.unsplash.com/photo-1490750967868-88aa4486c946?auto=format&fit=crop&q=80&w=400"),
    PlantTemplate("Emerald Spire", "Abies Smaragdus", Rare,
      "https://images.unsplash.com/photo-1542601906990-b4d3fb778b09?auto=format&fit=crop&q=80&w=400"),
    PlantTemplate("Crystal Weaver", "Crystallo Arachne", Legendary,
      "https://images.unsplash.com/photo-1466692479467-3e13e51a67e8?auto=format&fit=crop&q=80&w=400"),
    PlantTemplate("Ancient Oak of Time", "Quercus Chronos", Mythic,
      "https://images.unsplash.com/photo-1502082553048-f009c37129b9?auto=format&fit=crop&q=80&w=400")
  ]
}
