/**
 * The app's data model: food items, nutrition, the staged analysis results,
 * the persisted meal entity, voice commands and the app state. A `Float`
 * is modelled as an exact `real`, a `Long` as an `int`.
 */
module Models {
  import opened Wrappers

  datatype FoodItem = FoodItem(name: string, amount: string, ingredients: seq<string>)

  datatype Nutrition = Nutrition(calories: int, protein: real, carbs: real, fat: real)

  /** `AnalysisResult.Detailed`, the server's full analysis of one meal. */
  datatype Detailed = Detailed(mealId: string, description: string, items: seq<FoodItem>,
                               nutrition: Nutrition, advice: string)

  /** The staged results of `MealAnalyzer.analyze`. */
  datatype AnalysisResult =
    | Quick(category: string, confidence: real)
    | Full(detailed: Detailed)
    | Error(message: string)

  datatype SyncStatus = Pending | Synced | Failed

  /** The Room entity of the `meals` table. */
  datatype MealEntity = MealEntity(
    mealId: string,
    userId: string,
    timestamp: int,
    description: string,
    itemsJson: string,
    nutritionJson: string,
    photoPath: string,
    syncStatus: SyncStatus,
    lastSyncAttempt: Option<int>)

  datatype VoiceCommand =
    | RecordMeal
    | ViewHistory
    | GetAdvice
    | SuggestMenu
    | ConfirmYes
    | ConfirmNo
    | Cancel
    | Unknown

  datatype AnalysisStage = QuickStage | DetailedStage | Complete

  datatype AppState =
    | Idle
    | Listening
    | TakingPhoto
    | Analyzing(stage: AnalysisStage)
    | ConfirmingMeal(result: Detailed)
    | Correcting(mealId: string)
    | ShowingAdvice(advice: string)
}
