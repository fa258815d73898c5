/**
 * The preparedness games: visiting a game creates or advances the user's
 * progress entry for it, playing it awards points, and the statistics view
 * derives a rank and achievements from the entries and the total score.
 */
module GameController {
  import opened Base
  import opened Js
  import opened Models

  const MaxLevel := 10
  const StoryVisitPoints := 5

  function Min(a: int, b: int): int
  {
    if a <= b then a else b
  }

  function Max(a: int, b: int): int
  {
    if a >= b then a else b
  }

  // ------------------------------------------------------------------------
  // Progress entries
  // ------------------------------------------------------------------------

  /** Position of the first progress entry of game type `t` (-1 when there is none). */
  function GameIndex(games: seq<GameProgress>, t: GameType): (k: int)
    ensures -1 <= k < |games|
    ensures k == -1 <==> forall j :: 0 <= j < |games| ==> games[j].gameType != t
    ensures k >= 0 ==> games[k].gameType == t && forall j :: 0 <= j < k ==> games[j].gameType != t
  {
    if games == [] then -1
    else if games[0].gameType == t then 0
    else
      var k := GameIndex(games[1..], t);
      if k == -1 then -1 else k + 1
  }

  lemma {:induction false} IndexAfterAppend(games: seq<GameProgress>, g: GameProgress, t: GameType)
    requires GameIndex(games, t) == -1 && g.gameType == t
    ensures GameIndex(games + [g], t) == |games|
  {
    if games != [] {
      assert (games + [g])[1..] == games[1..] + [g];
      IndexAfterAppend(games[1..], g, t);
    }
  }

  lemma {:induction false} IndexAfterReplace(games: seq<GameProgress>, k: nat, g: GameProgress, t: GameType)
    requires k < |games| && g.gameType == games[k].gameType
    ensures GameIndex(games[k := g], t) == GameIndex(games, t)
  {
    if k > 0 {
      assert games[k := g][1..] == games[1..][k - 1 := g];
      IndexAfterReplace(games[1..], k - 1, g, t);
    }
  }

  lemma CountAfterAppend(games: seq<GameProgress>, g: GameProgress, t: GameType)
    ensures CountGames(games + [g], t) == CountGames(games, t) + (if g.gameType == t then 1 else 0)
  {
    assert (games + [g])[..|games|] == games;
  }

  lemma {:induction false} CountAfterReplace(games: seq<GameProgress>, k: nat, g: GameProgress, t: GameType)
    requires k < |games| && g.gameType == games[k].gameType
    ensures CountGames(games[k := g], t) == CountGames(games, t)
  {
    var n := |games| - 1;
    if k == n {
      assert games[k := g][..n] == games[..n];
    } else {
      assert games[k := g][..n] == games[..n][k := g];
      CountAfterReplace(games[..n], k, g, t);
    }
  }

  lemma {:induction false} NoIndexNoCount(games: seq<GameProgress>, t: GameType)
    requires GameIndex(games, t) == -1
    ensures CountGames(games, t) == 0
  {
    if games != [] {
      var prefix := games[..|games| - 1];
      assert forall j :: 0 <= j < |prefix| ==> prefix[j] == games[j];
      NoIndexNoCount(prefix, t);
    }
  }

  /** Appending an entry of a type the user has none of keeps the entries well formed. */
  lemma AppendFreshKeepsWellFormed(games: seq<GameProgress>, g: GameProgress)
    requires GamesWellFormed(games) && GameIndex(games, g.gameType) == -1 && 1 <= g.level <= MaxLevel
    ensures GamesWellFormed(games + [g])
  {
    NoIndexNoCount(games, g.gameType);
    var s := games + [g];
    forall t
      ensures CountGames(s, t) <= 1
    {
      CountAfterAppend(games, g, t);
    }
  }

  /** Rewriting one entry in place, with its type kept and its level in range, keeps them well formed. */
  lemma ReplaceKeepsWellFormed(games: seq<GameProgress>, k: nat, g: GameProgress)
    requires GamesWellFormed(games) && k < |games| && g.gameType == games[k].gameType && 1 <= g.level <= MaxLevel
    ensures GamesWellFormed(games[k := g])
  {
    var s := games[k := g];
    forall t
      ensures CountGames(s, t) <= 1
    {
      CountAfterReplace(games, k, g, t);
    }
  }

  /** The score an entry of type `t` shows in a response: `gameProgress?.score || 0`. */
  function EntryScore(games: seq<GameProgress>, t: GameType): (s: int)
    ensures GameIndex(games, t) == -1 ==> s == 0
    ensures GameIndex(games, t) != -1 ==> s == games[GameIndex(games, t)].score
  {
    var k := GameIndex(games, t);
    if k == -1 then 0 else games[k].score
  }

  // ------------------------------------------------------------------------
  // Visiting a game
  // ------------------------------------------------------------------------

  /**
   * Opening the story game: an existing story entry goes up one level, capped
   * at 10, and earns 5 points; otherwise a level-1 entry worth 5 points is added.
   */
  function StoryVisit(games: seq<GameProgress>, now: Time): seq<GameProgress>
  {
    var k := GameIndex(games, Story);
    if k == -1 then games + [GameProgress(Story, 1, StoryVisitPoints, now)]
    else games[k := games[k].(level := Min(games[k].level + 1, MaxLevel), score := games[k].score + StoryVisitPoints)]
  }

  /**
   * A story visit keeps at most one entry per game type and every level within
   * 1..10; it leaves the other entries alone and the story entry ends up with
   * the next level, capped, and 5 more points.
   */
  lemma StoryVisitEffect(games: seq<GameProgress>, now: Time)
    requires GamesWellFormed(games)
    ensures var r := StoryVisit(games, now);
            var k := GameIndex(r, Story);
            && GamesWellFormed(r)
            && k != -1
            && (GameIndex(games, Story) == -1 ==> k == |games| && r[k] == GameProgress(Story, 1, StoryVisitPoints, now))
            && (GameIndex(games, Story) != -1 ==>
                  && k == GameIndex(games, Story)
                  && r[k].level == Min(games[k].level + 1, MaxLevel)
                  && r[k].score == games[k].score + StoryVisitPoints)
            && |r| >= |games|
            && forall j :: 0 <= j < |games| && j != k ==> r[j] == games[j]
  {
    var k := GameIndex(games, Story);
    var r := StoryVisit(games, now);
    if k == -1 {
      var g := GameProgress(Story, 1, StoryVisitPoints, now);
      AppendFreshKeepsWellFormed(games, g);
      IndexAfterAppend(games, g, Story);
    } else {
      var g := games[k].(level := Min(games[k].level + 1, MaxLevel), score := games[k].score + StoryVisitPoints);
      ReplaceKeepsWellFormed(games, k, g);
      IndexAfterReplace(games, k, g, Story);
    }
  }

  /** Once at level 10, further visits keep the level at 10 and still earn points. */
  lemma StoryLevelStaysCapped(games: seq<GameProgress>, now: Time)
    requires GameIndex(games, Story) != -1 && games[GameIndex(games, Story)].level == MaxLevel
    ensures var k := GameIndex(games, Story);
            StoryVisit(games, now)[k].level == MaxLevel
            && StoryVisit(games, now)[k].score == games[k].score + StoryVisitPoints
  {
  }

  /** Opening the scenario or kit game: a level-1 entry with no score is added when there is none. */
  function EnsureEntry(games: seq<GameProgress>, t: GameType, now: Time): seq<GameProgress>
  {
    if GameIndex(games, t) == -1 then games + [GameProgress(t, 1, 0, now)] else games
  }

  /** Opening such a game adds an entry at most once: a second opening changes nothing. */
  lemma EnsureEntryIdempotent(games: seq<GameProgress>, t: GameType, first: Time, second: Time)
    ensures var once := EnsureEntry(games, t, first);
            EnsureEntry(once, t, second) == once && GameIndex(once, t) != -1
  {
    if GameIndex(games, t) == -1 {
      IndexAfterAppend(games, GameProgress(t, 1, 0, first), t);
    }
  }

  lemma EnsureEntryKeepsWellFormed(games: seq<GameProgress>, t: GameType, now: Time)
    requires GamesWellFormed(games)
    ensures GamesWellFormed(EnsureEntry(games, t, now))
  {
    if GameIndex(games, t) == -1 {
      AppendFreshKeepsWellFormed(games, GameProgress(t, 1, 0, now));
    }
  }

  /**
   * Awarding points after a game is played: with an entry of that type, its
   * score and the user's total score both move by `points`, and the completion
   * time is stamped when the handler does so; without one nothing changes.
   */
  function AwardPoints(u: User, t: GameType, points: int, stamp: Option<Time>): User
  {
    var k := GameIndex(u.gameProgress, t);
    if k == -1 then u
    else
      var e := u.gameProgress[k];
      var e' := e.(score := e.score + points, completedAt := if stamp.None? then e.completedAt else stamp.value);
      u.(gameProgress := u.gameProgress[k := e'], totalScore := u.totalScore + points)
  }

  /**
   * The total score and the entry's score move together, the level and every
   * other entry stay, and nothing else about the user changes.
   */
  lemma AwardPointsEffect(u: User, t: GameType, points: int, stamp: Option<Time>)
    requires GamesWellFormed(u.gameProgress)
    ensures var r := AwardPoints(u, t, points, stamp);
            var k := GameIndex(u.gameProgress, t);
            && GamesWellFormed(r.gameProgress)
            && |r.gameProgress| == |u.gameProgress|
            && GameIndex(r.gameProgress, t) == k
            && (k == -1 ==> r == u)
            && (k != -1 ==>
                  && r.totalScore - u.totalScore == points
                  && r.gameProgress[k].score - u.gameProgress[k].score == points
                  && r.gameProgress[k].level == u.gameProgress[k].level
                  && (stamp.Some? ==> r.gameProgress[k].completedAt == stamp.value))
            && (forall j :: 0 <= j < |u.gameProgress| && j != k ==> r.gameProgress[j] == u.gameProgress[j])
            && r == u.(gameProgress := r.gameProgress, totalScore := r.totalScore)
  {
    var k := GameIndex(u.gameProgress, t);
    if k != -1 {
      var e := u.gameProgress[k];
      var e' := e.(score := e.score + points, completedAt := if stamp.None? then e.completedAt else stamp.value);
      ReplaceKeepsWellFormed(u.gameProgress, k, e');
      IndexAfterReplace(u.gameProgress, k, e', t);
      assert AwardPoints(u, t, points, stamp)
          == u.(gameProgress := u.gameProgress[k := e'], totalScore := u.totalScore + points);
    }
  }

  // ------------------------------------------------------------------------
  // Story choices
  // ------------------------------------------------------------------------

  /** Points for a story choice: 10 for the number 1, 5 for the number 2, -5 for anything else, whatever the story. */
  function PointsForChoice(choiceId: Value): (p: int)
    ensures p == 10 <==> StrictEquals(choiceId, Num(1))
    ensures p == 5 <==> StrictEquals(choiceId, Num(2))
    ensures p == -5 <==> !StrictEquals(choiceId, Num(1)) && !StrictEquals(choiceId, Num(2))
  {
    if StrictEquals(choiceId, Num(1)) then 10
    else if StrictEquals(choiceId, Num(2)) then 5
    else -5
  }

  /** Only the number 1 or 2 scores: the string "1" is a wrong choice. */
  lemma ChoiceMustBeANumber()
    ensures PointsForChoice(Str("1")) == -5 && PointsForChoice(Str("2")) == -5
    ensures PointsForChoice(Num(1)) == 10 && PointsForChoice(Num(2)) == 5
  {
  }

  function ChoiceFeedback(points: int): string
  {
    if points > 5 then "Excellent choice!"
    else if points > 0 then "Good thinking!"
    else "Let's learn from this choice!"
  }

  /** Each of the three outcomes gets its own feedback. */
  lemma ChoiceFeedbackByOutcome(choiceId: Value)
    ensures StrictEquals(choiceId, Num(1)) ==> ChoiceFeedback(PointsForChoice(choiceId)) == "Excellent choice!"
    ensures StrictEquals(choiceId, Num(2)) ==> ChoiceFeedback(PointsForChoice(choiceId)) == "Good thinking!"
    ensures !StrictEquals(choiceId, Num(1)) && !StrictEquals(choiceId, Num(2)) ==>
              ChoiceFeedback(PointsForChoice(choiceId)) == "Let's learn from this choice!"
  {
  }

  /** A story choice never lowers a score: a wrong choice earns nothing rather than losing 5. */
  lemma StoryChoiceNeverLowersScore(u: User, choiceId: Value)
    requires GamesWellFormed(u.gameProgress)
    ensures var r := AwardPoints(u, Story, Max(PointsForChoice(choiceId), 0), None);
            r.totalScore >= u.totalScore
            && (!StrictEquals(choiceId, Num(1)) && !StrictEquals(choiceId, Num(2)) ==> r == u)
  {
    AwardPointsEffect(u, Story, Max(PointsForChoice(choiceId), 0), None);
    var k := GameIndex(u.gameProgress, Story);
    if k != -1 && !StrictEquals(choiceId, Num(1)) && !StrictEquals(choiceId, Num(2)) {
      var r := AwardPoints(u, Story, 0, None);
      assert u.gameProgress[k := u.gameProgress[k]] == u.gameProgress;
    }
  }

  // ------------------------------------------------------------------------
  // Scenario game
  // ------------------------------------------------------------------------

  /** An item dragged into the emergency kit area. */
  datatype ScenarioItem = ScenarioItem(name: string, category: string, points: int)

  /** Only items of the three known categories score. */
  predicate Scored(item: ScenarioItem)
  {
    item.category == "essential" || item.category == "useful" || item.category == "incorrect"
  }

  /** The points of the scored items. */
  function ScenarioPoints(items: seq<ScenarioItem>): int
  {
    if items == [] then 0
    else
      var last := items[|items| - 1];
      ScenarioPoints(items[..|items| - 1]) + (if Scored(last) then last.points else 0)
  }

  /** The number of items of one category. */
  function CountCategory(items: seq<ScenarioItem>, category: string): (n: nat)
    ensures n <= |items|
  {
    if items == [] then 0
    else CountCategory(items[..|items| - 1], category) + (if items[|items| - 1].category == category then 1 else 0)
  }

  /** No item counts iff none has the category; all count iff all have it. */
  lemma {:induction false} CountCategoryExtremes(items: seq<ScenarioItem>, category: string)
    ensures CountCategory(items, category) == 0 <==> forall i :: 0 <= i < |items| ==> items[i].category != category
    ensures CountCategory(items, category) == |items| <==> forall i :: 0 <= i < |items| ==> items[i].category == category
  {
    if items != [] {
      CountCategoryExtremes(items[..|items| - 1], category);
    }
  }

  /** Scoring is additive: a selection scores what its two halves score. */
  lemma {:induction false} ScenarioPointsAppend(a: seq<ScenarioItem>, b: seq<ScenarioItem>)
    ensures ScenarioPoints(a + b) == ScenarioPoints(a) + ScenarioPoints(b)
    ensures CountCategory(a + b, "essential") == CountCategory(a, "essential") + CountCategory(b, "essential")
    decreases |b|
  {
    if b == [] {
      assert a + b == a;
    } else {
      var n := |b| - 1;
      assert (a + b)[..|a + b| - 1] == a + b[..n];
      ScenarioPointsAppend(a, b[..n]);
    }
  }

  /** An item of any other category changes neither the score nor the counts. */
  lemma UnscoredItemIgnored(items: seq<ScenarioItem>, item: ScenarioItem)
    requires !Scored(item)
    ensures ScenarioPoints(items + [item]) == ScenarioPoints(items)
    ensures CountCategory(items + [item], "essential") == CountCategory(items, "essential")
    ensures CountCategory(items + [item], "incorrect") == CountCategory(items, "incorrect")
  {
    assert (items + [item])[..|items|] == items;
  }

  /** Essential and incorrect items are counted apart, so together they never exceed the selection. */
  lemma {:induction false} CorrectPlusIncorrectAtMostAll(items: seq<ScenarioItem>)
    ensures CountCategory(items, "essential") + CountCategory(items, "incorrect") <= |items|
  {
    if items != [] {
      CorrectPlusIncorrectAtMostAll(items[..|items| - 1]);
    }
  }

  /**
   * `submitScenarioResponse`'s `forEach`: adds the points of every scored
   * item and counts the essential and the incorrect ones.
   */
  method ScoreScenarioItems(items: seq<ScenarioItem>) returns (totalScore: int, correctItems: nat, incorrectItems: nat)
    ensures totalScore == ScenarioPoints(items)
    ensures correctItems == CountCategory(items, "essential")
    ensures incorrectItems == CountCategory(items, "incorrect")
  {
    totalScore, correctItems, incorrectItems := 0, 0, 0;
    for i := 0 to |items|
      invariant totalScore == ScenarioPoints(items[..i])
      invariant correctItems == CountCategory(items[..i], "essential")
      invariant incorrectItems == CountCategory(items[..i], "incorrect")
    {
      assert items[..i + 1][..i] == items[..i];
      var item := items[i];
      if item.category == "essential" {
        totalScore := totalScore + item.points;
        correctItems := correctItems + 1;
      } else if item.category == "useful" {
        totalScore := totalScore + item.points;
      } else if item.category == "incorrect" {
        totalScore := totalScore + item.points;
        incorrectItems := incorrectItems + 1;
      }
    }
    assert items[..|items|] == items;
  }

  /** A missing `timeTaken` compares false with both limits and earns nothing. */
  function TimeBonus(timeTaken: Option<int>): (b: int)
    ensures b == 10 <==> timeTaken.Some? && timeTaken.value < 180
    ensures b == 5 <==> timeTaken.Some? && 180 <= timeTaken.value < 240
    ensures b == 0 <==> timeTaken.None? || timeTaken.value >= 240
  {
    if timeTaken.Some? && timeTaken.value < 180 then 10
    else if timeTaken.Some? && timeTaken.value < 240 then 5
    else 0
  }

  function ScenarioScore(items: seq<ScenarioItem>, timeTaken: Option<int>): int
  {
    ScenarioPoints(items) + TimeBonus(timeTaken)
  }

  function ScenarioFeedback(score: int): string
  {
    if score > 40 then "Excellent!"
    else if score > 20 then "Good job!"
    else "Keep learning!"
  }

  /** The overall verdict has three bands: above 40, above 20, and the rest. */
  lemma ScenarioFeedbackBands(score: int)
    ensures ScenarioFeedback(score) == "Excellent!" <==> score > 40
    ensures ScenarioFeedback(score) == "Good job!" <==> 20 < score <= 40
    ensures ScenarioFeedback(score) == "Keep learning!" <==> score <= 20
  {
    assert "Excellent!"[0] != "Good job!"[0] && "Excellent!"[0] != "Keep learning!"[0];
    assert "Good job!"[0] != "Keep learning!"[0];
  }

  /** Two essential items worth 10 and 8, done in exactly 180 seconds: 23 points, "Good job!". */
  lemma FloodScenarioExample()
    ensures var items := [ScenarioItem("Move to higher ground", "essential", 10),
                          ScenarioItem("Fill bathtub with water", "essential", 8)];
            && ScenarioScore(items, Some(180)) == 23
            && CountCategory(items, "essential") == 2
            && ScenarioFeedback(23) == "Good job!"
  {
    var items := [ScenarioItem("Move to higher ground", "essential", 10),
                  ScenarioItem("Fill bathtub with water", "essential", 8)];
    assert items[..1] == [items[0]];
    assert [items[0]][..0] == [];
    assert ScenarioPoints(items[..1]) == 10;
    assert ScenarioPoints(items) == 18;
    assert CountCategory(items[..1], "essential") == 1;
  }

  datatype ScenarioResult = ScenarioResult(
    score: int,
    correctItems: nat,
    incorrectItems: nat,
    timeBonus: int,
    overall: string,
    entryScore: int)

  // ------------------------------------------------------------------------
  // Emergency kit game
  // ------------------------------------------------------------------------

  /** An item chosen for the kit; `days` is 0 when the item gives none. */
  datatype KitItem = KitItem(name: string, essential: bool, days: int)

  /** What the kit covers. */
  datatype KitEvaluation = KitEvaluation(
    waterDays: int,
    foodDays: int,
    hasFlashlight: bool,
    hasFirstAid: bool,
    hasRadio: bool)

  predicate NameHas(item: KitItem, word: string)
  {
    Contains(ToLower(item.name), word)
  }

  predicate IsFood(item: KitItem)
  {
    NameHas(item, "food") || NameHas(item, "meal")
  }

  /** The number of essential items, as `essentialsCovered` counts them. */
  function EssentialCount(items: seq<KitItem>): (n: nat)
    ensures n <= |items|
  {
    if items == [] then 0
    else EssentialCount(items[..|items| - 1]) + (if items[|items| - 1].essential then 1 else 0)
  }

  /** No item counts iff none is essential; all count iff all are. */
  lemma {:induction false} EssentialCountExtremes(items: seq<KitItem>)
    ensures EssentialCount(items) == 0 <==> forall i :: 0 <= i < |items| ==> !items[i].essential
    ensures EssentialCount(items) == |items| <==> forall i :: 0 <= i < |items| ==> items[i].essential
  {
    if items != [] {
      EssentialCountExtremes(items[..|items| - 1]);
    }
  }

  /** Days of supply from the items whose name mentions water. */
  function WaterDays(items: seq<KitItem>): int
  {
    if items == [] then 0
    else
      var last := items[|items| - 1];
      WaterDays(items[..|items| - 1]) + (if NameHas(last, "water") then last.days else 0)
  }

  /** Days of supply from the items whose name mentions food or a meal. */
  function FoodDays(items: seq<KitItem>): int
  {
    if items == [] then 0
    else
      var last := items[|items| - 1];
      FoodDays(items[..|items| - 1]) + (if IsFood(last) then last.days else 0)
  }

  /** Some item's name mentions `word`, whatever its case. */
  function AnyNamed(items: seq<KitItem>, word: string): (b: bool)
    ensures b <==> exists i :: 0 <= i < |items| && NameHas(items[i], word)
  {
    if items == [] then false
    else
      var prefix := items[..|items| - 1];
      assert forall i :: 0 <= i < |prefix| ==> prefix[i] == items[i];
      AnyNamed(prefix, word) || NameHas(items[|items| - 1], word)
  }

  function Evaluate(items: seq<KitItem>): KitEvaluation
  {
    KitEvaluation(WaterDays(items), FoodDays(items),
                  AnyNamed(items, "flashlight"), AnyNamed(items, "first aid"), AnyNamed(items, "radio"))
  }

  /** The evaluation after looking at one more item. */
  function Scanned(e: KitEvaluation, item: KitItem): KitEvaluation
  {
    KitEvaluation(
      e.waterDays + (if NameHas(item, "water") then item.days else 0),
      e.foodDays + (if IsFood(item) then item.days else 0),
      e.hasFlashlight || NameHas(item, "flashlight"),
      e.hasFirstAid || NameHas(item, "first aid"),
      e.hasRadio || NameHas(item, "radio"))
  }

  /**
   * Looking at two items in either order gives the same evaluation: the
   * day counts only add up and the flags only switch on.
   */
  lemma ScanCommutes(e: KitEvaluation, a: KitItem, b: KitItem)
    ensures Scanned(Scanned(e, a), b) == Scanned(Scanned(e, b), a)
    ensures var r := Scanned(e, a);
            (e.hasFlashlight ==> r.hasFlashlight) && (e.hasFirstAid ==> r.hasFirstAid) && (e.hasRadio ==> r.hasRadio)
  {
  }

  lemma EvaluateAppend(items: seq<KitItem>, item: KitItem)
    ensures Evaluate(items + [item]) == Scanned(Evaluate(items), item)
    ensures EssentialCount(items + [item]) == EssentialCount(items) + (if item.essential then 1 else 0)
  {
    assert (items + [item])[..|items|] == items;
  }

  /** The name checks of one item in `evaluateKit`'s `forEach`. */
  method ScanKitItem(e: KitEvaluation, item: KitItem) returns (r: KitEvaluation)
    ensures r == Scanned(e, item)
  {
    r := e;
    var name := ToLower(item.name);
    if Contains(name, "water") {
      r := r.(waterDays := r.waterDays + item.days);
    }
    assert r == e.(waterDays := Scanned(e, item).waterDays);
    if Contains(name, "food") || Contains(name, "meal") {
      r := r.(foodDays := r.foodDays + item.days);
    }
    assert r == e.(waterDays := Scanned(e, item).waterDays, foodDays := Scanned(e, item).foodDays);
    if Contains(name, "flashlight") {
      r := r.(hasFlashlight := true);
    }
    if Contains(name, "first aid") {
      r := r.(hasFirstAid := true);
    }
    if Contains(name, "radio") {
      r := r.(hasRadio := true);
    }
  }

  /**
   * `evaluateKit`'s `forEach`: 10 points and one covered essential per
   * essential item, the days of water and food supplies, and the three flags.
   */
  method EvaluateKitItems(items: seq<KitItem>) returns (score: int, essentialsCovered: nat, evaluation: KitEvaluation)
    ensures essentialsCovered == EssentialCount(items)
    ensures score == 10 * EssentialCount(items)
    ensures evaluation == Evaluate(items)
  {
    score, essentialsCovered := 0, 0;
    evaluation := KitEvaluation(0, 0, false, false, false);
    for i := 0 to |items|
      invariant essentialsCovered == EssentialCount(items[..i])
      invariant score == 10 * essentialsCovered
      invariant evaluation == Evaluate(items[..i])
    {
      assert items[..i + 1] == items[..i] + [items[i]];
      EvaluateAppend(items[..i], items[i]);
      var item := items[i];
      if item.essential {
        score := score + 10;
        essentialsCovered := essentialsCovered + 1;
      }
      evaluation := ScanKitItem(evaluation, item);
    }
    assert items[..|items|] == items;
  }

  /** The kit lasts as long as the scarcer of water and food. */
  function SurvivalDays(e: KitEvaluation): int
  {
    Min(e.waterDays, e.foodDays)
  }

  /** The survival days are those of the scarcer supply. */
  lemma SurvivalIsScarcer(e: KitEvaluation)
    ensures SurvivalDays(e) <= e.waterDays && SurvivalDays(e) <= e.foodDays
    ensures SurvivalDays(e) == e.waterDays || SurvivalDays(e) == e.foodDays
  {
  }

  function SurvivalBonus(days: int): (b: int)
    ensures b == 20 <==> days >= 3
    ensures b == 10 <==> 1 <= days < 3
    ensures b == 0 <==> days < 1
  {
    if days >= 3 then 20 else if days >= 1 then 10 else 0
  }

  /** 10 points for each of the flashlight, first-aid and radio flags. */
  function FlagBonus(e: KitEvaluation): (b: int)
    ensures 0 <= b <= 30
    ensures b == 0 <==> !e.hasFlashlight && !e.hasFirstAid && !e.hasRadio
    ensures b == 30 <==> e.hasFlashlight && e.hasFirstAid && e.hasRadio
    ensures !e.hasFirstAid && !e.hasRadio ==> b == (if e.hasFlashlight then 10 else 0)
    ensures !e.hasFlashlight && !e.hasRadio ==> b == (if e.hasFirstAid then 10 else 0)
    ensures !e.hasFlashlight && !e.hasFirstAid ==> b == (if e.hasRadio then 10 else 0)
  {
    (if e.hasFlashlight then 10 else 0) + (if e.hasFirstAid then 10 else 0) + (if e.hasRadio then 10 else 0)
  }

  /**
   * The budget rule on `totalCost / 100 * 100`: 80 to 100 earns 15, above 100
   * costs 10.  A missing cost is NaN, which neither comparison accepts.
   */
  function BudgetAdjustment(totalCost: Option<int>): (b: int)
    ensures b == 15 <==> totalCost.Some? && 80 <= totalCost.value <= 100
    ensures b == -10 <==> totalCost.Some? && totalCost.value > 100
    ensures b == 0 <==> totalCost.None? || totalCost.value < 80
  {
    if totalCost.Some? && 80 <= totalCost.value <= 100 then 15
    else if totalCost.Some? && totalCost.value > 100 then -10
    else 0
  }

  /** The kit score from what the items cover. */
  function ScoreOf(essentials: nat, e: KitEvaluation, totalCost: Option<int>): int
  {
    10 * essentials + SurvivalBonus(SurvivalDays(e)) + FlagBonus(e) + BudgetAdjustment(totalCost)
  }

  function KitScore(items: seq<KitItem>, totalCost: Option<int>): int
  {
    ScoreOf(EssentialCount(items), Evaluate(items), totalCost)
  }

  /**
   * A kit scores at least -10 and at most 65 more than 10 per item; the only
   * negative score is the over-budget penalty.
   */
  lemma KitScoreBounds(items: seq<KitItem>, totalCost: Option<int>)
    ensures -10 <= KitScore(items, totalCost) <= 10 * |items| + 65
    ensures KitScore(items, totalCost) < 0 ==> totalCost.Some? && totalCost.value > 100
  {
  }

  /** An empty kit over budget scores -10, which is added to the total score as it is. */
  lemma EmptyKitOverBudget(cost: int)
    requires cost > 100
    ensures KitScore([], Some(cost)) == -10
  {
  }

  function Grade(score: int): (g: string)
    ensures g == "A" <==> score >= 70
    ensures g == "B" <==> 50 <= score < 70
    ensures g == "C" <==> 30 <= score < 50
    ensures g == "D" <==> score < 30
  {
    if score >= 70 then "A" else if score >= 50 then "B" else if score >= 30 then "C" else "D"
  }

  /** The marks that open the feedback lines: good, warning, bad. */
  const Tick := '\U{2705}'
  const Warning := "\U{26A0}\U{FE0F}"
  const Cross := '\U{274C}'

  const EnoughSupplies := [Tick] + " Great! Your kit can sustain your family for 3+ days"
  const ShortSupplies := Warning + " Your kit may not last 72 hours - consider more water/food"
  const EssentialsCovered := [Tick] + " You covered most essential categories"
  const EssentialsMissing := Warning + " You're missing some essential items"
  const WithinBudget := [Tick] + " You stayed within budget"
  const OverBudget := [Cross] + " You went over budget"

  /** The scoring rules that follow the item loop, starting from the essential items' points. */
  method ApplyKitRules(essentialPoints: int, evaluation: KitEvaluation, totalCost: Option<int>) returns (score: int)
    ensures score == essentialPoints + SurvivalBonus(SurvivalDays(evaluation)) + FlagBonus(evaluation)
                     + BudgetAdjustment(totalCost)
  {
    score := essentialPoints;
    var survivalDays := Min(evaluation.waterDays, evaluation.foodDays);
    if survivalDays >= 3 {
      score := score + 20;
    } else if survivalDays >= 1 {
      score := score + 10;
    }
    if evaluation.hasFlashlight { score := score + 10; }
    if evaluation.hasFirstAid { score := score + 10; }
    if evaluation.hasRadio { score := score + 10; }
    if totalCost.Some? && 80 <= totalCost.value <= 100 {
      score := score + 15;
    } else if totalCost.Some? && totalCost.value > 100 {
      score := score - 10;
    }
  }

  /** The three feedback lines: survival, essentials covered, budget. */
  function KitFeedback(survivalDays: int, essentialsCovered: nat, totalCost: Option<int>): (f: seq<string>)
    ensures |f| == 3
    ensures f[0] == EnoughSupplies <==> survivalDays >= 3
    ensures f[0] == ShortSupplies <==> survivalDays < 3
    ensures f[1] == EssentialsCovered <==> essentialsCovered >= 4
    ensures f[1] == EssentialsMissing <==> essentialsCovered < 4
    ensures f[2] == WithinBudget <==> totalCost.Some? && totalCost.value <= 100
    ensures f[2] == OverBudget <==> totalCost.None? || totalCost.value > 100
  {
    assert EnoughSupplies[0] == Tick && ShortSupplies[0] == Warning[0];
    assert EssentialsCovered[0] == Tick && EssentialsMissing[0] == Warning[0];
    assert WithinBudget[0] == Tick && OverBudget[0] == Cross;
    [ if survivalDays >= 3 then EnoughSupplies else ShortSupplies,
      if essentialsCovered >= 4 then EssentialsCovered else EssentialsMissing,
      if totalCost.Some? && totalCost.value <= 100 then WithinBudget else OverBudget ]
  }

  /** A string without the character `c` cannot contain a string with it. */
  lemma {:induction false} MissingCharNotContained(s: string, sub: string, c: char)
    requires c in sub && c !in s
    ensures !Contains(s, sub)
    decreases |s|
  {
    if |sub| <= |s| {
      assert forall x :: x in s[..|sub|] ==> x in s;
      assert forall x :: x in s[1..] ==> x in s;
      MissingCharNotContained(s[1..], sub, c);
    }
  }

  /** Whether `c` occurs in `s` at position `i` or later. */
  function OccursFrom(s: string, c: char, i: nat): bool
    decreases |s| - i
  {
    i < |s| && (s[i] == c || OccursFrom(s, c, i + 1))
  }

  /** A character that does not occur from position `i` on is at no position from `i` on. */
  lemma {:induction false} AbsentFrom(s: string, c: char, i: nat)
    requires !OccursFrom(s, c, i)
    ensures forall k :: i <= k < |s| ==> s[k] != c
    decreases |s| - i
  {
    if i < |s| {
      AbsentFrom(s, c, i + 1);
    }
  }

  /** An item whose lower-case name is `name` lacks `word` when `name` lacks one of its characters. */
  lemma NameLacks(item: KitItem, name: string, word: string, c: char)
    requires ToLower(item.name) == name && c in word && !OccursFrom(name, c, 0)
    ensures !NameHas(item, word)
  {
    AbsentFrom(name, c, 0);
    MissingCharNotContained(ToLower(item.name), word, c);
  }

  /** An item whose lower-case name is `name` holds `word` when `name` spells it from position `i`. */
  lemma NameHolds(item: KitItem, name: string, word: string, i: nat)
    requires ToLower(item.name) == name && i + |word| <= |name| && name[i..i + |word|] == word
    ensures NameHas(item, word)
  {
    ContainsAt(ToLower(item.name), word, i);
  }

  lemma WaterBottlesLower(item: KitItem)
    requires item.name == "Water bottles"
    ensures ToLower(item.name) == "water bottles"
  {
    ToLowerByChars(item.name, "water bottles");
  }

  lemma CannedFoodLower(item: KitItem)
    requires item.name == "Canned food"
    ensures ToLower(item.name) == "canned food"
  {
    ToLowerByChars(item.name, "canned food");
  }

  lemma FlashlightLower(item: KitItem)
    requires item.name == "Flashlight"
    ensures ToLower(item.name) == "flashlight"
  {
    ToLowerByChars(item.name, "flashlight");
  }

  /** The letters that decide which words "water bottles" holds. */
  lemma WaterBottlesLetters()
    ensures "water bottles"[0..5] == "water"
    ensures !OccursFrom("water bottles", 'f', 0) && !OccursFrom("water bottles", 'm', 0)
    ensures !OccursFrom("water bottles", 'd', 0)
    ensures 'f' in "food" && 'm' in "meal" && 'f' in "flashlight" && 'f' in "first aid" && 'd' in "radio"
  {
  }

  /** The letters that decide which words "canned food" holds. */
  lemma CannedFoodLetters()
    ensures "canned food"[7..11] == "food"
    ensures !OccursFrom("canned food", 'w', 0) && !OccursFrom("canned food", 'l', 0)
    ensures !OccursFrom("canned food", 'i', 0) && !OccursFrom("canned food", 'r', 0)
    ensures !OccursFrom("canned food", 'm', 0) && 'm' in "meal"
    ensures 'w' in "water" && 'l' in "flashlight" && 'i' in "first aid" && 'r' in "radio"
  {
  }

  /** The letters that decide which words "flashlight" holds. */
  lemma FlashlightLetters()
    ensures !OccursFrom("flashlight", 'w', 0) && !OccursFrom("flashlight", 'o', 0)
    ensures !OccursFrom("flashlight", 'm', 0) && !OccursFrom("flashlight", 'r', 0)
    ensures 'w' in "water" && 'o' in "food" && 'm' in "meal" && 'r' in "first aid" && 'r' in "radio"
  {
  }

  /** The keywords an item's name holds, in the order the `forEach` checks them. */
  predicate Keywords(item: KitItem, water: bool, food: bool, meal: bool, flashlight: bool, firstAid: bool, radio: bool)
  {
    && NameHas(item, "water") == water && NameHas(item, "food") == food && NameHas(item, "meal") == meal
    && NameHas(item, "flashlight") == flashlight && NameHas(item, "first aid") == firstAid
    && NameHas(item, "radio") == radio
  }

  /** The words found in the lower-case name "water bottles". */
  lemma WaterBottlesWords(item: KitItem)
    requires ToLower(item.name) == "water bottles"
    ensures Keywords(item, true, false, false, false, false, false)
  {
    WaterBottlesLetters();
    NameHolds(item, "water bottles", "water", 0);
    NameLacks(item, "water bottles", "food", 'f');
    NameLacks(item, "water bottles", "meal", 'm');
    NameLacks(item, "water bottles", "flashlight", 'f');
    NameLacks(item, "water bottles", "first aid", 'f');
    NameLacks(item, "water bottles", "radio", 'd');
  }

  /** The words found in the lower-case name "canned food". */
  lemma CannedFoodWords(item: KitItem)
    requires ToLower(item.name) == "canned food"
    ensures Keywords(item, false, true, false, false, false, false)
  {
    CannedFoodLetters();
    NameLacks(item, "canned food", "water", 'w');
    NameHolds(item, "canned food", "food", 7);
    NameLacks(item, "canned food", "meal", 'm');
    NameLacks(item, "canned food", "flashlight", 'l');
    NameLacks(item, "canned food", "first aid", 'i');
    NameLacks(item, "canned food", "radio", 'r');
  }

  /** The keywords the lower-case name "flashlight" lacks. */
  lemma FlashlightLacks(item: KitItem)
    requires ToLower(item.name) == "flashlight"
    ensures !NameHas(item, "water") && !NameHas(item, "food") && !NameHas(item, "meal")
    ensures !NameHas(item, "first aid") && !NameHas(item, "radio")
  {
    FlashlightLetters();
    NameLacks(item, "flashlight", "water", 'w');
    NameLacks(item, "flashlight", "food", 'o');
    NameLacks(item, "flashlight", "meal", 'm');
    NameLacks(item, "flashlight", "first aid", 'r');
    NameLacks(item, "flashlight", "radio", 'r');
  }

  /** The words found in the lower-case name "flashlight". */
  lemma FlashlightWords(item: KitItem)
    requires ToLower(item.name) == "flashlight"
    ensures Keywords(item, false, false, false, true, false, false)
  {
    FlashlightLacks(item);
    var n := ToLower(item.name);
    assert n[0..|n|] == n;
    NameHolds(item, n, n, 0);
  }


  /** Appending an item whose name holds "water" and no other keyword adds its days to water. */
  lemma AddWaterOnly(prefix: seq<KitItem>, w: KitItem)
    requires Keywords(w, true, false, false, false, false, false)
    ensures var e := Evaluate(prefix);
            Evaluate(prefix + [w]) == e.(waterDays := e.waterDays + w.days)
  {
    EvaluateAppend(prefix, w);
  }

  /** Appending an item whose name holds "food" and no other keyword adds its days to food. */
  lemma AddFoodOnly(prefix: seq<KitItem>, f: KitItem)
    requires Keywords(f, false, true, false, false, false, false)
    ensures var e := Evaluate(prefix);
            Evaluate(prefix + [f]) == e.(foodDays := e.foodDays + f.days)
  {
    EvaluateAppend(prefix, f);
  }

  /** Appending an item whose name holds "flashlight" and no other keyword sets the flashlight flag. */
  lemma AddFlashlightOnly(prefix: seq<KitItem>, l: KitItem)
    requires Keywords(l, false, false, false, true, false, false)
    ensures var e := Evaluate(prefix);
            Evaluate(prefix + [l]) == e.(hasFlashlight := true)
  {
    EvaluateAppend(prefix, l);
  }

  /**
   * The sample kit (water bottles for 3 days, canned food for 7 days, a
   * flashlight, all essential, costing 50) scores 30 + 20 + 10 = 60: grade B.
   * The names count in any case; `WaterBottlesLower`, `CannedFoodLower` and
   * `FlashlightLower` show that the capitalised names qualify.
   */
  lemma SampleKitExample(w: KitItem, f: KitItem, l: KitItem)
    requires ToLower(w.name) == "water bottles" && w.essential && w.days == 3
    requires ToLower(f.name) == "canned food" && f.essential && f.days == 7
    requires ToLower(l.name) == "flashlight" && l.essential
    ensures Evaluate([w, f, l]) == KitEvaluation(3, 7, true, false, false)
    ensures KitScore([w, f, l], Some(50)) == 60 && Grade(KitScore([w, f, l], Some(50))) == "B"
  {
    SampleKitEvaluation(w, f, l);
    SampleKitEssentials(w, f, l);
    SampleKitScore();
    assert KitScore([w, f, l], Some(50)) == ScoreOf(3, KitEvaluation(3, 7, true, false, false), Some(50));
  }

  /** Three essential items, 3 days of water, 7 of food and a flashlight at a cost of 50: 60 points, grade B. */
  lemma SampleKitScore()
    ensures ScoreOf(3, KitEvaluation(3, 7, true, false, false), Some(50)) == 60 && Grade(60) == "B"
  {
  }

  /** The sample kit's items add up one by one. */
  lemma SampleKitEvaluation(w: KitItem, f: KitItem, l: KitItem)
    requires ToLower(w.name) == "water bottles" && w.days == 3
    requires ToLower(f.name) == "canned food" && f.days == 7
    requires ToLower(l.name) == "flashlight"
    ensures Evaluate([w, f, l]) == KitEvaluation(3, 7, true, false, false)
  {
    assert Evaluate([]) == KitEvaluation(0, 0, false, false, false);
    assert [] + [w] == [w];
    WaterBottlesWords(w);
    AddWaterOnly([], w);
    assert [w] + [f] == [w, f];
    CannedFoodWords(f);
    AddFoodOnly([w], f);
    assert [w, f] + [l] == [w, f, l];
    FlashlightWords(l);
    AddFlashlightOnly([w, f], l);
  }

  lemma SampleKitEssentials(w: KitItem, f: KitItem, l: KitItem)
    requires w.essential && f.essential && l.essential
    ensures EssentialCount([w, f, l]) == 3
  {
    assert [w][..0] == [];
    assert EssentialCount([w]) == 1;
    assert [w, f][..1] == [w];
    assert EssentialCount([w, f]) == 2;
    assert [w, f, l][..2] == [w, f];
  }

  datatype KitResult = KitResult(
    score: int,
    evaluation: KitEvaluation,
    survivalDays: int,
    feedback: seq<string>,
    grade: string,
    entryScore: int)

  // ------------------------------------------------------------------------
  // Statistics
  // ------------------------------------------------------------------------

  function Rank(totalScore: int): (r: string)
    ensures r == "Expert" <==> totalScore >= 1000
    ensures r == "Advanced" <==> 500 <= totalScore < 1000
    ensures r == "Intermediate" <==> 200 <= totalScore < 500
    ensures r == "Beginner" <==> totalScore < 200
  {
    if totalScore >= 1000 then "Expert"
    else if totalScore >= 500 then "Advanced"
    else if totalScore >= 200 then "Intermediate"
    else "Beginner"
  }

  /** The achievements a user can earn, in the order they are listed. */
  datatype Badge = StoryMaster | ScenarioExpert | KitBuilder | CenturyClub

  /** The text each achievement is reported as. */
  function BadgeName(b: Badge): string
  {
    match b
    case StoryMaster => "Story Master"
    case ScenarioExpert => "Scenario Expert"
    case KitBuilder => "Kit Builder"
    case CenturyClub => "Century Club"
  }

  /** Different achievements are reported under different names. */
  lemma BadgeNamesDistinct(a: Badge, b: Badge)
    ensures BadgeName(a) == BadgeName(b) <==> a == b
  {
    if a != b {
      assert BadgeName(a) != BadgeName(b) by {
        assert |BadgeName(a)| != |BadgeName(b)| || BadgeName(a)[0] != BadgeName(b)[0];
      }
    }
  }

  /** An achievement's place in the listing order. */
  function BadgeOrder(b: Badge): nat
  {
    match b
    case StoryMaster => 0
    case ScenarioExpert => 1
    case KitBuilder => 2
    case CenturyClub => 3
  }

  /** The achievements earned: each exactly when its threshold is met, at most once, always in listing order. */
  function Achievements(games: seq<GameProgress>, totalScore: int): (a: seq<Badge>)
    ensures StoryMaster in a <==> CountGames(games, Story) >= 5
    ensures ScenarioExpert in a <==> CountGames(games, Scenario) >= 3
    ensures KitBuilder in a <==> CountGames(games, Kit) >= 1
    ensures CenturyClub in a <==> totalScore >= 100
    ensures forall i, j :: 0 <= i < j < |a| ==> BadgeOrder(a[i]) < BadgeOrder(a[j])
  {
    (if CountGames(games, Story) >= 5 then [StoryMaster] else [])
    + (if CountGames(games, Scenario) >= 3 then [ScenarioExpert] else [])
    + (if CountGames(games, Kit) >= 1 then [KitBuilder] else [])
    + (if totalScore >= 100 then [CenturyClub] else [])
  }

  /**
   * Since the handlers keep at most one entry per game type, "Story Master"
   * and "Scenario Expert" (`StoryMaster`, `ScenarioExpert`) are never awarded.
   */
  lemma MasteryAchievementsUnreachable(games: seq<GameProgress>, totalScore: int)
    requires GamesWellFormed(games)
    ensures StoryMaster !in Achievements(games, totalScore)
    ensures ScenarioExpert !in Achievements(games, totalScore)
  {
    assert CountGames(games, Story) <= 1 && CountGames(games, Scenario) <= 1;
  }

  datatype Stats = Stats(totalScore: int, gamesPlayed: nat, gameProgress: seq<GameProgress>,
                         achievements: seq<Badge>, rank: string)

  // ------------------------------------------------------------------------
  // Handlers
  // ------------------------------------------------------------------------

  /**
   * `getStoryGame`: advances or creates the story entry and answers with its
   * level; a missing user is a 500 error.
   */
  method GetStoryGame(db: Database, userId: Id, now: Time) returns (reply: Reply<int>)
    requires db.Valid()
    modifies db
    ensures db.Valid()
    ensures db.courses == old(db.courses) && db.modules == old(db.modules)
    ensures db.questions == old(db.questions) && db.attempts == old(db.attempts)
    ensures userId !in old(db.users) ==> reply == Error(ServerError) && db.users == old(db.users)
    ensures userId in old(db.users) ==>
              var u := old(db.users)[userId];
              var games := StoryVisit(u.gameProgress, now);
              && db.users == old(db.users)[userId := u.(gameProgress := games)]
              && GameIndex(games, Story) != -1
              && reply == Ok(games[GameIndex(games, Story)].level)
              && 1 <= reply.value <= MaxLevel
  {
    if userId !in db.users {
      return Error(ServerError);
    }
    var u := db.users[userId];
    var games := StoryVisit(u.gameProgress, now);
    StoryVisitEffect(u.gameProgress, now);
    db.users := db.users[userId := u.(gameProgress := games)];
    reply := Ok(games[GameIndex(games, Story)].level);
  }

  datatype ChoiceResult = ChoiceResult(pointsEarned: int, entryScore: int, feedback: string)

  /** `processStoryChoice` */
  method ProcessStoryChoice(db: Database, userId: Id, choiceId: Value) returns (reply: Reply<ChoiceResult>)
    requires db.Valid()
    modifies db
    ensures db.Valid()
    ensures db.courses == old(db.courses) && db.modules == old(db.modules)
    ensures db.questions == old(db.questions) && db.attempts == old(db.attempts)
    ensures userId !in old(db.users) ==> reply == Error(ServerError) && db.users == old(db.users)
    ensures userId in old(db.users) ==>
              var p := PointsForChoice(choiceId);
              var u := AwardPoints(old(db.users)[userId], Story, Max(p, 0), None);
              && db.users == old(db.users)[userId := u]
              && reply == Ok(ChoiceResult(p, EntryScore(u.gameProgress, Story), ChoiceFeedback(p)))
  {
    var pointsEarned := PointsForChoice(choiceId);
    if userId !in db.users {
      return Error(ServerError);
    }
    var u := StoreAward(db, userId, Story, Max(pointsEarned, 0), None);
    reply := Ok(ChoiceResult(pointsEarned, EntryScore(u.gameProgress, Story), ChoiceFeedback(pointsEarned)));
  }

  /** Credits `points` to the user's entry for `t` and saves the user. */
  method StoreAward(db: Database, userId: Id, t: GameType, points: int, stamp: Option<Time>) returns (u: User)
    requires db.Valid() && userId in db.users
    modifies db
    ensures db.Valid()
    ensures u == AwardPoints(old(db.users)[userId], t, points, stamp)
    ensures db.users == old(db.users)[userId := u]
    ensures db.courses == old(db.courses) && db.modules == old(db.modules)
    ensures db.questions == old(db.questions) && db.attempts == old(db.attempts)
  {
    u := AwardPoints(db.users[userId], t, points, stamp);
    AwardPointsEffect(db.users[userId], t, points, stamp);
    db.users := db.users[userId := u];
  }

  /** `getScenarioGame` (`t` is `Scenario`) and `getKitGame` (`t` is `Kit`). */
  method OpenGame(db: Database, userId: Id, t: GameType, now: Time) returns (reply: Reply<int>)
    requires t != Story
    requires db.Valid()
    modifies db
    ensures db.Valid()
    ensures db.courses == old(db.courses) && db.modules == old(db.modules)
    ensures db.questions == old(db.questions) && db.attempts == old(db.attempts)
    ensures userId !in old(db.users) ==> reply == Error(ServerError) && db.users == old(db.users)
    ensures userId in old(db.users) ==>
              var u := old(db.users)[userId];
              var games := EnsureEntry(u.gameProgress, t, now);
              && db.users == old(db.users)[userId := u.(gameProgress := games)]
              && GameIndex(games, t) != -1
              && reply == Ok(games[GameIndex(games, t)].level)
  {
    if userId !in db.users {
      return Error(ServerError);
    }
    var u := db.users[userId];
    var games := EnsureEntry(u.gameProgress, t, now);
    EnsureEntryKeepsWellFormed(u.gameProgress, t, now);
    EnsureEntryIdempotent(u.gameProgress, t, now, now);
    db.users := db.users[userId := u.(gameProgress := games)];
    reply := Ok(games[GameIndex(games, t)].level);
  }

  /**
   * `submitScenarioResponse`: a missing selection throws (500, nothing
   * written); otherwise the score, clamped at zero, is credited to the
   * scenario entry and the total score.
   */
  method SubmitScenarioResponse(db: Database, userId: Id, selectedItems: Option<seq<ScenarioItem>>,
                                timeTaken: Option<int>, now: Time)
    returns (reply: Reply<ScenarioResult>)
    requires db.Valid()
    modifies db
    ensures db.Valid()
    ensures db.courses == old(db.courses) && db.modules == old(db.modules)
    ensures db.questions == old(db.questions) && db.attempts == old(db.attempts)
    ensures selectedItems.None? || userId !in old(db.users) ==> reply == Error(ServerError) && db.users == old(db.users)
    ensures selectedItems.Some? && userId in old(db.users) ==>
              var items := selectedItems.value;
              var score := ScenarioScore(items, timeTaken);
              var u := AwardPoints(old(db.users)[userId], Scenario, Max(score, 0), Some(now));
              && db.users == old(db.users)[userId := u]
              && reply == Ok(ScenarioResult(score, CountCategory(items, "essential"), CountCategory(items, "incorrect"),
                                            TimeBonus(timeTaken), ScenarioFeedback(score),
                                            EntryScore(u.gameProgress, Scenario)))
  {
    if selectedItems.None? {
      return Error(ServerError);
    }
    var totalScore, correctItems, incorrectItems := ScoreScenarioItems(selectedItems.value);
    var timeBonus := TimeBonus(timeTaken);
    totalScore := totalScore + timeBonus;
    if userId !in db.users {
      return Error(ServerError);
    }
    var u := StoreAward(db, userId, Scenario, Max(totalScore, 0), Some(now));
    reply := Ok(ScenarioResult(totalScore, correctItems, incorrectItems, timeBonus,
                               ScenarioFeedback(totalScore), EntryScore(u.gameProgress, Scenario)));
  }

  /**
   * `evaluateKit`: a missing selection throws (500, nothing written);
   * otherwise the kit score, unclamped, is credited to the kit entry and the
   * total score.
   */
  method EvaluateKit(db: Database, userId: Id, selectedItems: Option<seq<KitItem>>, totalCost: Option<int>, now: Time)
    returns (reply: Reply<KitResult>)
    requires db.Valid()
    modifies db
    ensures db.Valid()
    ensures db.courses == old(db.courses) && db.modules == old(db.modules)
    ensures db.questions == old(db.questions) && db.attempts == old(db.attempts)
    ensures selectedItems.None? || userId !in old(db.users) ==> reply == Error(ServerError) && db.users == old(db.users)
    ensures selectedItems.Some? && userId in old(db.users) ==>
              var items := selectedItems.value;
              var score := KitScore(items, totalCost);
              var days := SurvivalDays(Evaluate(items));
              var u := AwardPoints(old(db.users)[userId], Kit, score, Some(now));
              && db.users == old(db.users)[userId := u]
              && reply == Ok(KitResult(score, Evaluate(items), days,
                                       KitFeedback(days, EssentialCount(items), totalCost),
                                       Grade(score), EntryScore(u.gameProgress, Kit)))
  {
    if selectedItems.None? {
      return Error(ServerError);
    }
    var score, evaluation, survivalDays, feedback := ScoreKit(selectedItems.value, totalCost);
    if userId !in db.users {
      return Error(ServerError);
    }
    var u := StoreAward(db, userId, Kit, score, Some(now));
    reply := Ok(KitResult(score, evaluation, survivalDays, feedback, Grade(score), EntryScore(u.gameProgress, Kit)));
  }

  /** Everything `evaluateKit` computes from the items and the cost, before anything is written. */
  method ScoreKit(items: seq<KitItem>, totalCost: Option<int>)
    returns (score: int, evaluation: KitEvaluation, survivalDays: int, feedback: seq<string>)
    ensures score == KitScore(items, totalCost)
    ensures evaluation == Evaluate(items)
    ensures survivalDays == SurvivalDays(evaluation)
    ensures feedback == KitFeedback(survivalDays, EssentialCount(items), totalCost)
  {
    var essentialPoints, essentialsCovered;
    essentialPoints, essentialsCovered, evaluation := EvaluateKitItems(items);
    survivalDays := Min(evaluation.waterDays, evaluation.foodDays);
    score := ApplyKitRules(essentialPoints, evaluation, totalCost);
    feedback := KitFeedback(survivalDays, essentialsCovered, totalCost);
  }

  /** `getGameStats`: reads the user only. */
  method GetGameStats(db: Database, userId: Id) returns (reply: Reply<Stats>)
    requires db.Valid()
    ensures userId !in db.users ==> reply == Error(ServerError)
    ensures userId in db.users ==>
              var u := db.users[userId];
              && reply.Ok?
              && reply.value.totalScore == u.totalScore
              && reply.value.gamesPlayed == |u.gameProgress|
              && reply.value.gameProgress == u.gameProgress
              && reply.value.rank == Rank(u.totalScore)
              && reply.value.achievements == Achievements(u.gameProgress, u.totalScore)
              && StoryMaster !in reply.value.achievements
              && ScenarioExpert !in reply.value.achievements
  {
    if userId !in db.users {
      return Error(ServerError);
    }
    var u := db.users[userId];
    MasteryAchievementsUnreachable(u.gameProgress, u.totalScore);
    reply := Ok(Stats(u.totalScore, |u.gameProgress|, u.gameProgress,
                      Achievements(u.gameProgress, u.totalScore), Rank(u.totalScore)));
  }
}
