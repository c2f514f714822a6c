/**
 * `MealAnalyzer`: the staged analysis of one meal photo. The on-device
 * labels give a quick category; the server's response becomes the detailed
 * result, which is stored as a synced meal, and a server failure queues
 * a placeholder meal for a later sync. `updateMeal` merges a user's
 * correction into the stored meal and sends only the corrected fields to
 * the server.
 *
 * ML Kit, the server, Room and Gson are outside the model: their answers
 * are parameters (`labels`, `server`, `stored`, the JSON texts) and what the
 * analyzer does with them is recorded, in order, in `trace`.
 */
module MealAnalyzer {
  import opened Wrappers
  import opened Models
  import opened Text

  // ---------------------------------------------------------------------------
  // Quick analysis
  // ---------------------------------------------------------------------------

  /** An ML Kit image label. */
  datatype Label = Label(text: string, confidence: real)

  const DefaultCategory := "料理"
  const DefaultConfidence: real := 0.5
  /** `0.3f`: the single-precision value nearest to 0.3. */
  const FailedConfidence: real := 0.300000011920928955078125

  predicate IsFoodLabel(text: string)
  {
    var l := Lower(text);
    Contains(l, "food") || Contains(l, "dish") || Contains(l, "meal") || Contains(l, "cuisine")
  }

  /** `firstOrNull`: the index of the first food label. */
  function FirstFoodLabel(labels: seq<Label>): (i: Option<nat>)
    ensures i.Some? ==> i.value < |labels| && IsFoodLabel(labels[i.value].text)
    ensures i.Some? ==> forall j :: 0 <= j < i.value ==> !IsFoodLabel(labels[j].text)
    ensures i.None? <==> forall j :: 0 <= j < |labels| ==> !IsFoodLabel(labels[j].text)
  {
    if |labels| == 0 then None
    else if IsFoodLabel(labels[0].text) then Some(0)
    else match FirstFoodLabel(labels[1..])
      case None => None
      case Some(k) => Some(k + 1)
  }

  /**
   * `performQuickAnalysis`: `labels` is `None` when decoding or labelling
   * the photo throws. The category and confidence are the first food
   * label's; with none, the defaults.
   */
  function QuickAnalysis(labels: Option<seq<Label>>): (r: AnalysisResult)
    ensures r.Quick?
    ensures labels.None? ==> r == Quick(DefaultCategory, FailedConfidence)
    ensures labels.Some? && FirstFoodLabel(labels.value).None? ==> r == Quick(DefaultCategory, DefaultConfidence)
    ensures labels.Some? && FirstFoodLabel(labels.value).Some? ==>
              exists i :: 0 <= i < |labels.value| && IsFoodLabel(labels.value[i].text) &&
                          (forall j :: 0 <= j < i ==> !IsFoodLabel(labels.value[j].text)) &&
                          r == Quick(labels.value[i].text, labels.value[i].confidence)
    ensures labels.Some? && FirstFoodLabel(labels.value).Some? ==>
              var i := FirstFoodLabel(labels.value).value;
              r == Quick(labels.value[i].text, labels.value[i].confidence)
  {
    match labels
    case None => Quick(DefaultCategory, FailedConfidence)
    case Some(ls) =>
      match FirstFoodLabel(ls)
      case None => Quick(DefaultCategory, DefaultConfidence)
      case Some(i) => Quick(ls[i].text, ls[i].confidence)
  }

  /** A food label with no food label before it is the first one. */
  lemma FirstFoodAt(l: seq<Label>, m: nat)
    requires m < |l| && IsFoodLabel(l[m].text)
    requires forall j :: 0 <= j < m ==> !IsFoodLabel(l[j].text)
    ensures FirstFoodLabel(l) == Some(m)
  {
  }

  /** Labels that are not food, put in front, shift the first food label by their number. */
  lemma FirstFoodShifts(prefix: seq<Label>, rest: seq<Label>)
    requires forall j :: 0 <= j < |prefix| ==> !IsFoodLabel(prefix[j].text)
    ensures FirstFoodLabel(prefix + rest) ==
              (match FirstFoodLabel(rest) case None => None case Some(k) => Some(|prefix| + k))
  {
    var l := prefix + rest;
    var n := match FirstFoodLabel(rest) case None => |rest| case Some(k) => k;
    forall j | 0 <= j < |prefix| + n
      ensures !IsFoodLabel(l[j].text)
    {
      if j < |prefix| {
        assert l[j] == prefix[j];
      } else {
        assert l[j] == rest[j - |prefix|];
      }
    }
    match FirstFoodLabel(rest) {
      case None =>
        assert |prefix| + n == |l|;
      case Some(k) =>
        assert l[|prefix| + k] == rest[k];
        FirstFoodAt(l, |prefix| + k);
    }
  }

  /** Labels that are not food, put in front, change nothing in the quick result. */
  lemma QuickSkipsNonFood(prefix: seq<Label>, rest: seq<Label>)
    requires forall j :: 0 <= j < |prefix| ==> !IsFoodLabel(prefix[j].text)
    ensures QuickAnalysis(Some(prefix + rest)) == QuickAnalysis(Some(rest))
  {
    FirstFoodShifts(prefix, rest);
    var l := prefix + rest;
    match FirstFoodLabel(rest) {
      case None =>
        assert FirstFoodLabel(l) == None;
      case Some(k) =>
        assert FirstFoodLabel(l) == Some(|prefix| + k);
        assert l[|prefix| + k] == rest[k];
    }
  }

  /** Case does not matter: "Food", "FOOD" and "food" all qualify. */
  lemma FoodInAnyCase(text: string)
    requires Contains(text, "Food") || Contains(text, "FOOD")
    ensures IsFoodLabel(text)
  {
    FoodSpellingsLower();
    if Contains(text, "Food") {
      LowerContains(text, "Food");
    } else {
      LowerContains(text, "FOOD");
    }
  }

  lemma FoodSpellingsLower()
    ensures Lower("Food") == "food" && Lower("FOOD") == "food"
  {
  }

  /** Where `needle` is contained in `s`, its lowercase is contained in `Lower(s)`. */
  lemma LowerContains(s: string, needle: string)
    requires Contains(s, needle)
    ensures Contains(Lower(s), Lower(needle))
  {
    ContainsIffOccurs(s, needle);
    var i :| 0 <= i <= |s| - |needle| && OccursAt(s, needle, i);
    LowerOccurs(s, needle, i);
    OccursContains(Lower(s), Lower(needle), i);
  }

  /** Where `needle` occurs in `s`, its lowercase occurs in `Lower(s)`. */
  lemma LowerOccurs(s: string, needle: string, i: nat)
    requires OccursAt(s, needle, i)
    ensures OccursAt(Lower(s), Lower(needle), i)
  {
  }

  // ---------------------------------------------------------------------------
  // Detailed analysis
  // ---------------------------------------------------------------------------

  /** The values Gson puts into an untyped `Map<String, Any>`; numbers are doubles. */
  datatype JsonValue =
    | JString(s: string)
    | JNumber(x: real)
    | JBool(b: bool)
    | JList(elems: seq<JsonValue>)
    | JObject(fields: map<string, JsonValue>)

  /** `MealAnalysisResponse` as far as the analyzer reads it. */
  datatype ServerResponse = ServerResponse(
    mealId: string,
    description: string,
    items: seq<map<string, JsonValue>>,
    nutritionalInfo: map<string, JsonValue>,
    suggestions: string)

  /** `item[key] as? String ?: ""`. */
  function StringField(m: map<string, JsonValue>, key: string): (s: string)
    ensures key in m && m[key].JString? ==> s == m[key].s
    ensures !(key in m && m[key].JString?) ==> s == ""
  {
    if key in m && m[key].JString? then m[key].s else ""
  }

  /** `mapNotNull { it as? String }`: the strings of a list, in order. */
  function StringsOf(elems: seq<JsonValue>): (r: seq<string>)
    ensures |r| <= |elems|
    ensures forall s :: s in r <==> JString(s) in elems
  {
    if |elems| == 0 then []
    else if elems[0].JString? then [elems[0].s] + StringsOf(elems[1..])
    else StringsOf(elems[1..])
  }

  /** A list holding only strings loses none of them. */
  lemma {:induction false} StringsOfAllStrings(elems: seq<JsonValue>)
    requires forall i :: 0 <= i < |elems| ==> elems[i].JString?
    ensures |StringsOf(elems)| == |elems|
    ensures forall i :: 0 <= i < |elems| ==> StringsOf(elems)[i] == elems[i].s
  {
    if |elems| > 0 {
      StringsOfAllStrings(elems[1..]);
    }
  }

  /** Filtering a concatenation filters each part. */
  lemma {:induction false} StringsOfConcat(a: seq<JsonValue>, b: seq<JsonValue>)
    ensures StringsOf(a + b) == StringsOf(a) + StringsOf(b)
  {
    if |a| == 0 {
      assert a + b == b;
    } else {
      assert (a + b)[1..] == a[1..] + b;
      StringsOfConcat(a[1..], b);
    }
  }

  /** The ingredient list, empty when the key is missing or not a list. */
  function Ingredients(m: map<string, JsonValue>): (r: seq<string>)
    ensures !("ingredients" in m && m["ingredients"].JList?) ==> r == []
    ensures "ingredients" in m && m["ingredients"].JList? ==>
              forall s :: s in r <==> JString(s) in m["ingredients"].elems
  {
    if "ingredients" in m && m["ingredients"].JList? then StringsOf(m["ingredients"].elems) else []
  }

  function ItemFrom(m: map<string, JsonValue>): (item: FoodItem)
    ensures item.name == StringField(m, "name") && item.amount == StringField(m, "amount")
    ensures item.ingredients == Ingredients(m)
  {
    FoodItem(StringField(m, "name"), StringField(m, "amount"), Ingredients(m))
  }

  const IntMin: int := -0x8000_0000
  const IntMax: int := 0x7FFF_FFFF

  /** Kotlin's `Double.toInt()`: rounds toward zero and saturates at the 32-bit bounds. */
  function DoubleToInt(x: real): (n: int)
    ensures IntMin <= n <= IntMax
    ensures IntMin as real <= x <= IntMax as real ==> (x >= 0.0 ==> n as real <= x < n as real + 1.0)
    ensures IntMin as real <= x <= IntMax as real ==> (x < 0.0 ==> n as real - 1.0 < x <= n as real)
    ensures x > IntMax as real ==> n == IntMax
    ensures x < IntMin as real ==> n == IntMin
  {
    var t := if x >= 0.0 then x.Floor else -((-x).Floor);
    if t > IntMax then IntMax else if t < IntMin then IntMin else t
  }

  /** `(info[key] as? Number)?.toInt() ?: 0`. */
  function IntField(m: map<string, JsonValue>, key: string): (n: int)
    ensures !(key in m && m[key].JNumber?) ==> n == 0
    ensures key in m && m[key].JNumber? ==> n == DoubleToInt(m[key].x)
  {
    if key in m && m[key].JNumber? then DoubleToInt(m[key].x) else 0
  }

  /** `(info[key] as? Number)?.toFloat() ?: 0f`, without the rounding to single precision. */
  function RealField(m: map<string, JsonValue>, key: string): (x: real)
    ensures !(key in m && m[key].JNumber?) ==> x == 0.0
    ensures key in m && m[key].JNumber? ==> x == m[key].x
  {
    if key in m && m[key].JNumber? then m[key].x else 0.0
  }

  function NutritionFrom(info: map<string, JsonValue>): (n: Nutrition)
    ensures n.calories == IntField(info, "calories")
    ensures n.protein == RealField(info, "protein") && n.carbs == RealField(info, "carbs")
    ensures n.fat == RealField(info, "fat")
  {
    Nutrition(IntField(info, "calories"), RealField(info, "protein"), RealField(info, "carbs"),
              RealField(info, "fat"))
  }

  /** `performDetailedAnalysis`: the response converted item by item. */
  function DetailedFrom(response: ServerResponse): (d: Detailed)
    ensures d.mealId == response.mealId && d.description == response.description
    ensures d.advice == response.suggestions && d.nutrition == NutritionFrom(response.nutritionalInfo)
    ensures |d.items| == |response.items|
    ensures forall i :: 0 <= i < |d.items| ==> d.items[i] == ItemFrom(response.items[i])
  {
    Detailed(response.mealId, response.description, seq(|response.items|, i requires 0 <= i < |response.items| => ItemFrom(response.items[i])),
             NutritionFrom(response.nutritionalInfo), response.suggestions)
  }

  /** An empty nutrition object gives zero everywhere. */
  lemma EmptyNutrition()
    ensures NutritionFrom(map[]) == Nutrition(0, 0.0, 0.0, 0.0)
  {
  }

  // ---------------------------------------------------------------------------
  // Stored meals
  // ---------------------------------------------------------------------------

  /** Decimal digits of a natural number, most significant first. */
  function Digits(n: nat): (s: string)
    ensures |s| > 0 && (s[0] == '0' ==> n == 0)
    ensures forall i :: 0 <= i < |s| ==> '0' <= s[i] <= '9'
  {
    if n < 10 then [('0' as int + n) as char]
    else Digits(n / 10) + [('0' as int + n % 10) as char]
  }

  /** The number a string of decimal digits stands for. */
  function DigitsValue(s: string): (v: nat)
    requires forall i :: 0 <= i < |s| ==> '0' <= s[i] <= '9'
  {
    if |s| == 0 then 0 else DigitsValue(s[..|s| - 1]) * 10 + (s[|s| - 1] as int - '0' as int)
  }

  lemma {:induction false} DigitsRoundTrip(n: nat)
    ensures DigitsValue(Digits(n)) == n
  {
    if n >= 10 {
      var s := Digits(n);
      assert s[..|s| - 1] == Digits(n / 10);
      DigitsRoundTrip(n / 10);
    }
  }

  /** `Long.toString`. */
  function Decimal(n: int): (s: string)
    ensures n >= 0 ==> s == Digits(n)
    ensures n < 0 ==> s == "-" + Digits(-n)
    ensures s[0] == '-' <==> n < 0
  {
    if n < 0 then "-" + Digits(-n) else Digits(n)
  }

  lemma DecimalInjective(a: int, b: int)
    ensures Decimal(a) == Decimal(b) ==> a == b
  {
    if a >= 0 && b >= 0 {
      DigitsRoundTrip(a);
      DigitsRoundTrip(b);
    } else if a < 0 && b < 0 {
      assert Decimal(a)[1..] == Digits(-a);
      assert Decimal(b)[1..] == Digits(-b);
      DigitsRoundTrip(-a);
      DigitsRoundTrip(-b);
    }
  }

  /** The placeholder meal ID of the offline queue. */
  function TempMealId(millis: int): (id: string)
    ensures |id| > 5 && id[..5] == "temp_"
  {
    "temp_" + Decimal(millis)
  }

  /** Meals queued at different milliseconds get different IDs. */
  lemma TempIdsDistinct(a: int, b: int)
    requires a != b
    ensures TempMealId(a) != TempMealId(b)
  {
    assert TempMealId(a)[5..] == Decimal(a);
    assert TempMealId(b)[5..] == Decimal(b);
    DecimalInjective(a, b);
  }

  const UnanalysedDescription := "（未解析）"
  const OfflineMessage := "詳細解析は後で実行します。オフラインモードです。"

  /** `saveToDatabase`'s entity, with the Gson renderings of the items and the nutrition. */
  function SavedMeal(userId: string, d: Detailed, photoPath: string, now: int,
                     itemsJson: string, nutritionJson: string): (e: MealEntity)
    ensures e.mealId == d.mealId && e.description == d.description && e.userId == userId
    ensures e.photoPath == photoPath && e.timestamp == now
    ensures e.itemsJson == itemsJson && e.nutritionJson == nutritionJson
    ensures e.syncStatus == Synced && e.lastSyncAttempt.None?
  {
    MealEntity(d.mealId, userId, now, d.description, itemsJson, nutritionJson, photoPath, Synced, None)
  }

  /** `queueForLaterSync`'s entity; the clock is read once for the ID and again for the timestamp. */
  function QueuedMeal(userId: string, photoPath: string, idMillis: int, now: int): (e: MealEntity)
    ensures e.mealId == TempMealId(idMillis) && e.userId == userId && e.timestamp == now
    ensures e.description == UnanalysedDescription && e.itemsJson == "[]" && e.nutritionJson == "{}"
    ensures e.photoPath == photoPath && e.syncStatus == Pending && e.lastSyncAttempt.None?
  {
    MealEntity(TempMealId(idMillis), userId, now, UnanalysedDescription, "[]", "{}", photoPath, Pending, None)
  }

  /** `updateMeal`'s copy: a null correction keeps the stored value. */
  function Merged(meal: MealEntity, description: Option<string>, itemsJson: Option<string>): (e: MealEntity)
    ensures e.description == description.GetOr(meal.description)
    ensures e.itemsJson == itemsJson.GetOr(meal.itemsJson)
    ensures e.(description := meal.description, itemsJson := meal.itemsJson) == meal
  {
    meal.(description := description.GetOr(meal.description), itemsJson := itemsJson.GetOr(meal.itemsJson))
  }

  /** The `corrections` map: exactly the non-null fields. */
  function Corrections(description: Option<string>, itemsJson: Option<string>): (c: map<string, string>)
    ensures "description" in c <==> description.Some?
    ensures "items" in c <==> itemsJson.Some?
    ensures forall k :: k in c ==> k == "description" || k == "items"
    ensures description.Some? ==> c["description"] == description.value
    ensures itemsJson.Some? ==> c["items"] == itemsJson.value
  {
    var withDescription := if description.Some? then map["description" := description.value] else map[];
    if itemsJson.Some? then withDescription["items" := itemsJson.value] else withDescription
  }

  /** A correction naming nothing leaves the stored meal as it was. */
  lemma MergeNothing(meal: MealEntity)
    ensures Merged(meal, None, None) == meal
  {
  }

  /** Applying the same correction twice is the same as once. */
  lemma MergeIdempotent(meal: MealEntity, description: Option<string>, itemsJson: Option<string>)
    ensures Merged(Merged(meal, description, itemsJson), description, itemsJson) == Merged(meal, description, itemsJson)
  {
  }

  // ---------------------------------------------------------------------------
  // The analyzer
  // ---------------------------------------------------------------------------

  /** What the analyzer does, in order: results it emits, rows it writes, corrections it sends. */
  datatype Event =
    | Emitted(result: AnalysisResult)
    | Inserted(meal: MealEntity)
    | Updated(meal: MealEntity)
    | CorrectionsSent(mealId: string, corrections: map<string, string>)

  /** The results among the events, in order. */
  function Results(events: seq<Event>): (r: seq<AnalysisResult>)
    ensures |r| <= |events|
  {
    if |events| == 0 then []
    else if events[0].Emitted? then [events[0].result] + Results(events[1..])
    else Results(events[1..])
  }

  lemma {:induction false} ResultsConcat(a: seq<Event>, b: seq<Event>)
    ensures Results(a + b) == Results(a) + Results(b)
  {
    if |a| == 0 {
      assert a + b == b;
    } else {
      assert (a + b)[1..] == a[1..] + b;
      ResultsConcat(a[1..], b);
    }
  }

  /** The row `insertMeal` leaves behind: the meal, or nothing when the database refuses it. */
  function RowsAfterInsert(accepted: bool, meal: MealEntity): (rows: seq<Event>)
    ensures |rows| == if accepted then 1 else 0
    ensures forall i :: 0 <= i < |rows| ==> rows[i] == Inserted(meal)
    ensures Results(rows) == []
  {
    if accepted then [Inserted(meal)] else []
  }

  /**
   * Everything one `analyze` call does, in order: the quick result, then
   * the detailed result and its synced row, or the queued row and the
   * offline error. A row the database refuses is missing.
   */
  function AnalysisEvents(labels: Option<seq<Label>>, server: Option<ServerResponse>, userId: string,
                          photoPath: string, idMillis: int, now: int, itemsJson: string, nutritionJson: string,
                          accepted: bool): (events: seq<Event>)
    ensures |events| == if accepted then 3 else 2
    ensures events[0] == Emitted(QuickAnalysis(labels))
    ensures Results(events) ==
              [QuickAnalysis(labels), if server.Some? then Full(DetailedFrom(server.value)) else Error(OfflineMessage)]
    ensures forall i :: 0 <= i < |events| && events[i].Inserted? ==>
              events[i].meal == if server.Some? then SavedMeal(userId, DetailedFrom(server.value), photoPath, now,
                                                               itemsJson, nutritionJson)
                                else QueuedMeal(userId, photoPath, idMillis, now)
    ensures accepted ==> events[if server.Some? then 2 else 1].Inserted?
    ensures forall i :: 0 <= i < |events| ==> !events[i].Updated? && !events[i].CorrectionsSent?
  {
    var quick := Emitted(QuickAnalysis(labels));
    match server
    case Some(response) =>
      var detailed := DetailedFrom(response);
      var rows := RowsAfterInsert(accepted, SavedMeal(userId, detailed, photoPath, now, itemsJson, nutritionJson));
      ResultsConcat([quick, Emitted(Full(detailed))], rows);
      [quick, Emitted(Full(detailed))] + rows
    case None =>
      var rows := RowsAfterInsert(accepted, QueuedMeal(userId, photoPath, idMillis, now));
      ResultsConcat([quick], rows);
      ResultsConcat([quick] + rows, [Emitted(Error(OfflineMessage))]);
      [quick] + rows + [Emitted(Error(OfflineMessage))]
  }

  class MealAnalyzer {
    var trace: seq<Event>

    constructor ()
      ensures trace == []
    {
      trace := [];
    }

    /**
     * Record a row unless the database refuses it (the failure is logged
     * and swallowed).
     */
    method Insert(meal: MealEntity, accepted: bool)
      modifies this
      ensures trace == old(trace) + (if accepted then [Inserted(meal)] else [])
    {
      if accepted {
        trace := trace + [Inserted(meal)];
      }
    }

    /**
     * `analyze`: emit the quick result; then, when the server answers,
     * emit the detailed result and store it as synced; when it does not,
     * queue a placeholder and emit the offline error.
     */
    method Analyze(labels: Option<seq<Label>>, server: Option<ServerResponse>, userId: string,
                   photoPath: string, idMillis: int, now: int, itemsJson: string, nutritionJson: string,
                   accepted: bool)
      modifies this
      ensures trace == old(trace) + AnalysisEvents(labels, server, userId, photoPath, idMillis, now,
                                                   itemsJson, nutritionJson, accepted)
      ensures Results(trace) == Results(old(trace)) +
                [QuickAnalysis(labels), if server.Some? then Full(DetailedFrom(server.value)) else Error(OfflineMessage)]
    {
      ghost var start := trace;
      ghost var events := AnalysisEvents(labels, server, userId, photoPath, idMillis, now, itemsJson, nutritionJson, accepted);
      trace := trace + [Emitted(QuickAnalysis(labels))];
      match server {
        case Some(response) =>
          var detailed := DetailedFrom(response);
          trace := trace + [Emitted(Full(detailed))];
          var row := SavedMeal(userId, detailed, photoPath, now, itemsJson, nutritionJson);
          Insert(row, accepted);
          assert trace == start + events;
        case None =>
          var row := QueuedMeal(userId, photoPath, idMillis, now);
          Insert(row, accepted);
          trace := trace + [Emitted(Error(OfflineMessage))];
          assert trace == start + events;
      }
      ResultsConcat(start, events);
    }

    /**
     * `updateMeal`: `stored` is what `getMealById` found. The found meal is
     * rewritten with the corrections merged in; the server hears of the
     * corrections only when there is at least one. `daoThrows` says that
     * `getMealById` or `update` threw: the `catch` then only logs, so
     * nothing is written and the server is not called.
     */
    method UpdateMeal(mealId: string, description: Option<string>, itemsJson: Option<string>,
                      stored: Option<MealEntity>, daoThrows: bool)
      modifies this
      ensures daoThrows ==> trace == old(trace)
      ensures !daoThrows ==>
              trace == old(trace) +
                       (if stored.Some? then [Updated(Merged(stored.value, description, itemsJson))] else []) +
                       (if description.Some? || itemsJson.Some? then [CorrectionsSent(mealId, Corrections(description, itemsJson))]
                        else [])
    {
      if daoThrows {
        return;
      }
      if stored.Some? {
        trace := trace + [Updated(Merged(stored.value, description, itemsJson))];
      }
      if description.Some? || itemsJson.Some? {
        var corrections: map<string, string> := map[];
        if description.Some? {
          corrections := corrections["description" := description.value];
        }
        if itemsJson.Some? {
          corrections := corrections["items" := itemsJson.value];
        }
        assert corrections == Corrections(description, itemsJson);
        trace := trace + [CorrectionsSent(mealId, corrections)];
      }
    }
  }
}
