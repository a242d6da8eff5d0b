/** Value types shared by the backend store, the voice logger and the charts:
    the JSON shapes that travel between the Flask service and the React client. */
module Nutrition {

  datatype Option<+T> = None | Some(value: T)

  /** A thrown error (its message) or a value. */
  datatype Result<+T> = Success(value: T) | Failure(message: string)

  /** The four nutrition totals that every entry and every day carries
      (the REAL columns total_calories, total_protein, total_carbs, total_fat). */
  datatype Macros = Macros(calories: real, protein: real, carbs: real, fat: real)

  const NoMacros := Macros(0.0, 0.0, 0.0, 0.0)

  /** Field-wise sum of two sets of totals. */
  function Plus(a: Macros, b: Macros): Macros
  {
    Macros(a.calories + b.calories, a.protein + b.protein, a.carbs + b.carbs, a.fat + b.fat)
  }

  /** One food item as the nutrition analysis reports it. */
  datatype Food = Food(name: string, quantity: string, macros: Macros)

  /** The analysis of a transcription: the parsed JSON object, which may carry an "error" key. */
  datatype MacroData = MacroData(error: Option<string>, foods: seq<Food>, totals: Macros, analysis: string)

  /** One row of daily_macro_stats without its date (the date is the key of the table). */
  datatype DayStats = DayStats(totals: Macros, mealCount: int)

  /** One row of daily_macro_stats as the stats endpoint returns it. */
  datatype StatRow = StatRow(entryDate: string, stats: DayStats)
}
