/**
 * The device's key-value store, held in memory. Each slot stands for one
 * storage key; a slot that is None has never been written. JSON encoding and
 * the asynchronous read/write calls are not part of this model.
 */
module Storage {
  import opened Wrappers

  /** One entry of the `messageLearningRecords` list. */
  datatype LearningRecord = LearningRecord(
    id: int,
    scenarioId: Option<int>,
    originalMessage: string,
    correctedMessage: string,
    timestamp: string,
    category: string)

  const DailyUsagePrefix: string := "dailyUsage_"

  /** The storage key of one calendar day's usage counter. */
  function DailyUsageKey(today: string): (k: string)
    ensures |k| == |DailyUsagePrefix| + |today|
    ensures k[..|DailyUsagePrefix|] == DailyUsagePrefix && k[|DailyUsagePrefix|..] == today
  {
    DailyUsagePrefix + today
  }

  /** Different days never share a counter. */
  lemma DailyUsageKeyInjective(d1: string, d2: string)
    requires d1 != d2
    ensures DailyUsageKey(d1) != DailyUsageKey(d2)
  {
  }

  /** JavaScript truthiness of `m[k]` for an id-to-boolean record: absent reads as false. */
  predicate IsChecked(m: map<int, bool>, k: int) {
    k in m && m[k]
  }

  /** `{ ...m, [k]: !m[k] }`: entry k is negated (an absent entry becomes true), nothing else moves. */
  function Flipped(m: map<int, bool>, k: int): (r: map<int, bool>)
    ensures k in r && IsChecked(r, k) == !IsChecked(m, k)
    ensures forall j :: j != k ==> (j in r <==> j in m) && (j in r ==> r[j] == m[j])
  {
    m[k := !IsChecked(m, k)]
  }

  /** Flipping the same entry twice restores what every id reads as. */
  lemma FlipTwice(m: map<int, bool>, k: int)
    ensures forall j :: IsChecked(Flipped(Flipped(m, k), k), j) == IsChecked(m, j)
  {
  }

  class Store {
    /** `checkedWords`: item id to checked flag. */
    var checkedWords: Option<map<int, bool>>
    /** `dailyUsage_<date>` counters, by full key; only this app writes them, always as n + 1. */
    var usage: map<string, nat>
    /** `isPremium`: the raw stored string. */
    var premium: Option<string>
    /** `messageLearningRecords`. */
    var learningRecords: Option<seq<LearningRecord>>

    constructor (checkedWords: Option<map<int, bool>>, usage: map<string, nat>,
                 premium: Option<string>, learningRecords: Option<seq<LearningRecord>>)
      ensures this.checkedWords == checkedWords && this.usage == usage
      ensures this.premium == premium && this.learningRecords == learningRecords
    {
      this.checkedWords := checkedWords;
      this.usage := usage;
      this.premium := premium;
      this.learningRecords := learningRecords;
    }
  }
}
