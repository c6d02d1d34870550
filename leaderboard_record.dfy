/** One finished run on the global leaderboard, with its statistics looked
    up by field name. */
module LeaderboardRecords {
  import opened Integers

  datatype LeaderboardRecord = LeaderboardRecord(
    playerName: string,
    time: u32,
    score: u32,
    maxAlphaCount: u32,
    maxControlChain: u32,
    maxHyperChain: u32,
    totalControlCount: u32,
    totalHyperCount: u32,
    maxControlCount: u32,
    maxFullLevelControlCount: u32,
    maxControlLevel: u32,
    maxHyperLevel: u32,
    totalStoppingTime: u32,
    maxStoppingTime: u32,
    startedAt: string,
    endedAt: string)
  {
    /** A run is identified by the moment it started. */
    function Uid(): (id: string)
      ensures id == startedAt
    {
      startedAt
    }

    /** The statistic of the given name; any other name is a panic. */
    function Fetch(field: string): (v: u32)
      requires field in FETCHABLE_FIELDS
      ensures forall k :: 0 <= k < |FIELD_NAMES| && FIELD_NAMES[k] == field ==> v == Statistics(this)[k]
    {
      match field
      case "time" => time
      case "score" => score
      case "max_alpha_count" => maxAlphaCount
      case "max_control_chain" => maxControlChain
      case "max_hyper_chain" => maxHyperChain
      case "total_control_count" => totalControlCount
      case "total_hyper_count" => totalHyperCount
      case "max_control_count" => maxControlCount
      case "max_full_level_control_count" => maxFullLevelControlCount
      case "max_control_level" => maxControlLevel
      case "max_hyper_level" => maxHyperLevel
      case "max_stopping_time" => maxStoppingTime
      case _ => assert false; time
    }
  }

  /** The names `fetch` accepts, in its order. */
  const FIELD_NAMES: seq<string> := [
    "time", "score", "max_alpha_count", "max_control_chain", "max_hyper_chain",
    "total_control_count", "total_hyper_count", "max_control_count",
    "max_full_level_control_count", "max_control_level", "max_hyper_level", "max_stopping_time"]

  const FETCHABLE_FIELDS: set<string> := set f | f in FIELD_NAMES

  /** The statistics of a record in the order of `FIELD_NAMES`. */
  function Statistics(r: LeaderboardRecord): seq<u32> {
    [ r.time, r.score, r.maxAlphaCount, r.maxControlChain, r.maxHyperChain,
      r.totalControlCount, r.totalHyperCount, r.maxControlCount,
      r.maxFullLevelControlCount, r.maxControlLevel, r.maxHyperLevel, r.maxStoppingTime ]
  }

  /** `fetch` reads, for each of the twelve names, the statistic of that
      name, and the names are all different. */
  lemma FetchReadsNamedField(r: LeaderboardRecord)
    ensures |FIELD_NAMES| == |Statistics(r)| == 12
    ensures forall k :: 0 <= k < 12 ==> r.Fetch(FIELD_NAMES[k]) == Statistics(r)[k]
  {
    forall k | 0 <= k < 12
      ensures r.Fetch(FIELD_NAMES[k]) == Statistics(r)[k]
    {
      assert FIELD_NAMES[k] in FETCHABLE_FIELDS;
    }
  }

  lemma NamesDistinct()
    ensures forall a, b :: 0 <= a < b < |FIELD_NAMES| ==> FIELD_NAMES[a] != FIELD_NAMES[b]
  {
  }

  /** The fields that are not statistics, and the total stopping time
      (a statistic the function does not list), are never read by `fetch`:
      changing them changes no fetched value. */
  lemma FetchIgnoresUnlistedFields(r: LeaderboardRecord, f: string, name: string, t: u32, at: string, until: string)
    requires f in FETCHABLE_FIELDS
    ensures "total_stopping_time" !in FETCHABLE_FIELDS && "player_name" !in FETCHABLE_FIELDS
    ensures r.(playerName := name, totalStoppingTime := t, startedAt := at, endedAt := until).Fetch(f) == r.Fetch(f)
  {
  }
}
