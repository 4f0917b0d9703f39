/**
 * The message-correction drill: the user writes a message for a scenario and
 * asks for a (mock) correction. Non-premium users get three corrections per
 * calendar day; every accepted request is appended to the stored learning
 * records. Each handler is one atomic step on the screen state and the store.
 */
module MessageWriting {
  import opened Wrappers
  import opened Catalog
  import opened Storage
  import opened JsString

  /** Corrections a non-premium user may request per calendar day. */
  const DailyLimit: nat := 3

  /** Category stored with a record when the scenario has none. */
  const DefaultCategory: string := "기타"

  // The mock correction's rewrite rules, applied in this order.
  const Pattern1: string := "할머니가"
  const Replacement1: string := "할머니께서"
  const Pattern2: string := "아프다"
  const Replacement2: string := "아프시다"
  const Pattern3: string := "병원에 간다"
  const Replacement3: string := "병원에 가야 합니다"
  const Pattern4: string := "통증이 심하다"
  const Replacement4: string := "통증이 심하십니다"

  datatype Language = Korean | Vietnamese

  /** What a correction request ends with. */
  datatype CorrectionOutcome =
    | EmptyMessage          // the "please enter a message" alert
    | LimitReached          // the premium modal was opened instead
    | Corrected(text: string)

  /** The four global replacements, chained in order. */
  function ReplaceChain(s: string): string {
    ReplaceAll(ReplaceAll(ReplaceAll(ReplaceAll(s, Pattern1, Replacement1),
      Pattern2, Replacement2), Pattern3, Replacement3), Pattern4, Replacement4)
  }

  /** Every replacement is strictly longer than its pattern, so the chain never shortens a text. */
  lemma ReplaceChainGrows(s: string)
    ensures |ReplaceChain(s)| >= |s|
  {
    var s1 := ReplaceAll(s, Pattern1, Replacement1);
    var s2 := ReplaceAll(s1, Pattern2, Replacement2);
    var s3 := ReplaceAll(s2, Pattern3, Replacement3);
    ReplaceLength(s, Pattern1, Replacement1);
    ReplaceLength(s1, Pattern2, Replacement2);
    ReplaceLength(s2, Pattern3, Replacement3);
    ReplaceLength(s3, Pattern4, Replacement4);
  }

  /**
   * The hard-coded stand-in for an AI correction: the replacement chain,
   * falling back to the original when the chain yields the empty string.
   */
  function MockCorrection(original: string): (r: string)
    ensures |r| >= |original|
    ensures r == [] <==> original == []
  {
    ReplaceChainGrows(original);
    var corrected := ReplaceChain(original);
    if corrected == [] then original else corrected
  }

  predicate ContainsNoPattern(s: string) {
    && !Occurs(s, Pattern1) && !Occurs(s, Pattern2)
    && !Occurs(s, Pattern3) && !Occurs(s, Pattern4)
  }

  /** The mock correction leaves a message alone exactly when none of the four patterns occurs in it. */
  lemma MockCorrectionUnchangedIff(s: string)
    ensures MockCorrection(s) == s <==> ContainsNoPattern(s)
  {
    var s1 := ReplaceAll(s, Pattern1, Replacement1);
    var s2 := ReplaceAll(s1, Pattern2, Replacement2);
    var s3 := ReplaceAll(s2, Pattern3, Replacement3);
    var s4 := ReplaceAll(s3, Pattern4, Replacement4);
    ReplaceLength(s, Pattern1, Replacement1);
    ReplaceLength(s1, Pattern2, Replacement2);
    ReplaceLength(s2, Pattern3, Replacement3);
    ReplaceLength(s3, Pattern4, Replacement4);
    if ContainsNoPattern(s) {
      ReplaceAbsent(s, Pattern1, Replacement1);
      ReplaceAbsent(s1, Pattern2, Replacement2);
      ReplaceAbsent(s2, Pattern3, Replacement3);
      ReplaceAbsent(s3, Pattern4, Replacement4);
    }
    if MockCorrection(s) == s && s != [] {
      assert s4 == s;
      assert |s1| == |s| && |s2| == |s| && |s3| == |s|;
      ReplaceAbsent(s, Pattern1, Replacement1);
      ReplaceAbsent(s1, Pattern2, Replacement2);
      ReplaceAbsent(s2, Pattern3, Replacement3);
    }
  }

  function Toggled(language: Language): (r: Language)
    ensures r != language
  {
    if language == Korean then Vietnamese else Korean
  }

  lemma ToggleTwice(language: Language)
    ensures Toggled(Toggled(language)) == language
  {
  }

  /** The usage gate: a non-premium user who has used up the day's corrections is refused. */
  predicate Blocked(isPremium: bool, dailyUsage: nat)
    ensures isPremium ==> !Blocked(isPremium, dailyUsage)
  {
    !isPremium && dailyUsage >= DailyLimit
  }

  /** `Math.max(0, 3 - dailyUsage)`, the counter shown to non-premium users. */
  function RemainingUsage(dailyUsage: nat): (r: nat)
    ensures r <= DailyLimit
    ensures r > 0 <==> !Blocked(false, dailyUsage)
    ensures dailyUsage <= DailyLimit ==> r + dailyUsage == DailyLimit
  {
    if DailyLimit > dailyUsage then DailyLimit - dailyUsage else 0
  }

  /** The record `saveLearningRecord` appends, built from the scenario on screen, if any. */
  function NewRecord(items: seq<Item>, index: nat, original: string, corrected: string,
                     now: int, timestamp: string): (r: LearningRecord)
    ensures r.originalMessage == original && r.correctedMessage == corrected
    ensures r.id == now && r.timestamp == timestamp
    ensures r.scenarioId.Some? <==> index < |items|
    ensures index < |items| ==> r.scenarioId == Some(items[index].id)
    ensures r.category != []
  {
    var scenarioId := if index < |items| then Some(items[index].id) else None;
    var category := if index < |items| && items[index].category != [] then items[index].category
                    else DefaultCategory;
    LearningRecord(now, scenarioId, original, corrected, timestamp, category)
  }

  class MessageDrill {
    /** The catalog items that carry a scenario. */
    const items: seq<Item>
    const store: Store
    var index: nat
    var message: string
    var showFeedback: bool
    var dailyUsage: nat
    var isPremium: bool
    var showPremiumModal: bool
    var feedbackLanguage: Language
    var showHint: bool
    var showCelebration: bool

    /** The cursor is a valid scenario index, or 0 over an empty deck (the error screen). */
    ghost predicate Valid()
      reads this
    {
      index == 0 || index < |items|
    }

    /** The stored records, an absent key read as the empty list. */
    function StoredRecords(): seq<LearningRecord>
      reads this, store
    {
      store.learningRecords.GetOr([])
    }

    /** Mounting the screen: the initial state, then today's usage and the premium flag are read. */
    constructor (catalog: seq<Item>, store: Store, today: string)
      ensures Valid()
      ensures items == Scenarios(catalog) && this.store == store
      ensures index == 0 && message == [] && !showFeedback && !showPremiumModal
      ensures feedbackLanguage == Korean && !showHint && !showCelebration
      ensures dailyUsage == (if DailyUsageKey(today) in store.usage then store.usage[DailyUsageKey(today)] else 0)
      ensures isPremium <==> store.premium == Some("true")
    {
      items := Scenarios(catalog);
      this.store := store;
      index := 0;
      message := [];
      showFeedback := false;
      showPremiumModal := false;
      feedbackLanguage := Korean;
      showHint := false;
      showCelebration := false;
      var key := DailyUsageKey(today);
      dailyUsage := if key in store.usage then store.usage[key] else 0;
      isPremium := store.premium == Some("true");
    }

    /** Stores and shows one more use today, counted from the in-memory counter. */
    method SaveDailyUsage(today: string)
      modifies this`dailyUsage, store`usage
      ensures dailyUsage == old(dailyUsage) + 1
      ensures store.usage == old(store.usage)[DailyUsageKey(today) := dailyUsage]
    {
      var newUsage := dailyUsage + 1;
      store.usage := store.usage[DailyUsageKey(today) := newUsage];
      dailyUsage := newUsage;
    }

    /** Appends one record to the stored list, keeping every earlier record in order. */
    method SaveLearningRecord(original: string, corrected: string, now: int, timestamp: string)
      modifies store`learningRecords
      ensures store.learningRecords
        == Some(old(StoredRecords()) + [NewRecord(items, index, original, corrected, now, timestamp)])
    {
      var records := store.learningRecords.GetOr([]);
      records := records + [NewRecord(items, index, original, corrected, now, timestamp)];
      store.learningRecords := Some(records);
    }

    /**
     * The "request AI correction" button. An empty (after trimming) message
     * changes nothing; a blocked user only gets the premium modal; otherwise
     * the correction is shown, one record is appended and a non-premium
     * user's usage goes up by exactly one.
     */
    method RequestCorrection(today: string, now: int, timestamp: string)
      returns (outcome: CorrectionOutcome)
      requires Valid()
      modifies this, store
      ensures Valid()
      ensures index == old(index) && message == old(message) && isPremium == old(isPremium)
      ensures feedbackLanguage == old(feedbackLanguage) && showHint == old(showHint)
      ensures showCelebration == old(showCelebration)
      ensures store.checkedWords == old(store.checkedWords) && store.premium == old(store.premium)
      ensures AllWhitespace(old(message)) ==>
        && outcome == EmptyMessage
        && unchanged(this) && unchanged(store)
      ensures !AllWhitespace(old(message)) && Blocked(old(isPremium), old(dailyUsage)) ==>
        && outcome == LimitReached
        && showPremiumModal && showFeedback == old(showFeedback)
        && dailyUsage == old(dailyUsage) && unchanged(store)
      ensures !AllWhitespace(old(message)) && !Blocked(old(isPremium), old(dailyUsage)) ==>
        && outcome == Corrected(MockCorrection(old(message)))
        && showFeedback && showPremiumModal == old(showPremiumModal)
        && store.learningRecords == Some(old(StoredRecords())
             + [NewRecord(items, index, message, MockCorrection(message), now, timestamp)])
        && (isPremium ==> dailyUsage == old(dailyUsage) && store.usage == old(store.usage))
        && (!isPremium ==>
              && dailyUsage == old(dailyUsage) + 1 <= DailyLimit
              && store.usage == old(store.usage)[DailyUsageKey(today) := dailyUsage])
    {
      if AllWhitespace(message) {
        return EmptyMessage;
      }
      if !isPremium && dailyUsage >= DailyLimit {
        showPremiumModal := true;
        return LimitReached;
      }
      var corrected := MockCorrection(message);
      if !isPremium {
        SaveDailyUsage(today);
      }
      SaveLearningRecord(message, corrected, now, timestamp);
      showFeedback := true;
      outcome := Corrected(corrected);
    }

    /** "Next": moves on and clears the per-scenario state, or celebrates at the last scenario. */
    method GoNext()
      requires Valid()
      modifies this
      ensures Valid()
      ensures dailyUsage == old(dailyUsage) && isPremium == old(isPremium)
      ensures showPremiumModal == old(showPremiumModal) && feedbackLanguage == old(feedbackLanguage)
      ensures old(index) < |items| - 1 ==>
        && index == old(index) + 1
        && message == [] && !showFeedback && !showHint
        && showCelebration == old(showCelebration)
      ensures old(index) >= |items| - 1 ==>
        && index == old(index) && message == old(message)
        && showFeedback == old(showFeedback) && showHint == old(showHint)
        && showCelebration
    {
      if index < |items| - 1 {
        index := index + 1;
        message := [];
        showFeedback := false;
        showHint := false;
      } else {
        showCelebration := true;
      }
    }

    /** "Previous": steps back with the same resets; at the first scenario it does nothing. */
    method GoPrevious()
      requires Valid()
      modifies this
      ensures Valid()
      ensures dailyUsage == old(dailyUsage) && isPremium == old(isPremium)
      ensures showPremiumModal == old(showPremiumModal) && feedbackLanguage == old(feedbackLanguage)
      ensures showCelebration == old(showCelebration)
      ensures old(index) > 0 ==>
        index == old(index) - 1 && message == [] && !showFeedback && !showHint
      ensures old(index) == 0 ==> unchanged(this)
    {
      if index > 0 {
        index := index - 1;
        message := [];
        showFeedback := false;
        showHint := false;
      }
    }

    method ToggleFeedbackLanguage()
      modifies this`feedbackLanguage
      ensures feedbackLanguage == Toggled(old(feedbackLanguage))
    {
      feedbackLanguage := Toggled(feedbackLanguage);
    }

    method ToggleHint()
      modifies this`showHint
      ensures showHint == !old(showHint)
    {
      showHint := !showHint;
    }

    /** The text box's change handler. */
    method EditMessage(text: string)
      modifies this`message
      ensures message == text
    {
      message := text;
    }
  }
}
