/** The per-level leaderboard: for each level code, whether the level was
    ever cleared, its best clear and the first histories played on it. */
module Leaderboard {
  import opened Integers

  const MAX_HISTORIES_PER_LEVEL: nat := 9

  datatype Option<T> = None | Some(value: T)

  /** One play of a level: whether it cleared, how many ticks it took, the
      controls used, and when it was submitted. */
  datatype LevelHistory = LevelHistory(
    isClear: bool,
    time: u32,
    x: seq<real>,
    y: seq<real>,
    force: seq<real>,
    angle: seq<real>,
    createdAt: string)

  /** `LevelHistory::default()`. */
  const DEFAULT_HISTORY: LevelHistory := LevelHistory(false, 0, [], [], [], [], "")

  datatype LevelRecord = LevelRecord(isClear: bool, bestHistory: Option<LevelHistory>, histories: seq<LevelHistory>)

  /** The record of a level nobody has played. */
  const EMPTY_RECORD: LevelRecord := LevelRecord(false, None, [])

  type LevelMap = map<string, LevelRecord>

  // ---------------------------------------------------------------------
  // The operations on values

  /** A level's record once it is open: the stored one, or a fresh empty one. */
  function Opened(m: LevelMap, code: string): LevelMap {
    if code in m then m else m[code := EMPTY_RECORD]
  }

  /** A record after one more history: the history is appended unless that
      would exceed the cap, in which case it is dropped again; a clear
      history becomes the best when there was none or when it is strictly
      faster, and marks the level clear. */
  function StoreRecord(r: LevelRecord, h: LevelHistory): LevelRecord {
    var histories := if |r.histories| + 1 > MAX_HISTORIES_PER_LEVEL then r.histories else r.histories + [h];
    if !h.isClear then r.(histories := histories)
    else
      var best := match r.bestHistory
        case Some(b) => if b.time > h.time then Some(h) else r.bestHistory
        case None => Some(h);
      LevelRecord(true, best, histories)
  }

  /** The map after storing a history for `code`; a level never opened is
      left alone. */
  function Stored(m: LevelMap, code: string, h: LevelHistory): LevelMap {
    if code in m then m[code := StoreRecord(m[code], h)] else m
  }

  /** What `level_info` reports. */
  function InfoOf(m: LevelMap, code: string): LevelRecord {
    if code in m then m[code] else EMPTY_RECORD
  }

  /** The records `store_level_history` can produce: at most nine
      histories, clear exactly when there is a best, and the best is a
      clear history. */
  predicate RecordOk(r: LevelRecord) {
    && |r.histories| <= MAX_HISTORIES_PER_LEVEL
    && (r.isClear <==> r.bestHistory.Some?)
    && (r.bestHistory.Some? ==> r.bestHistory.value.isClear)
  }

  predicate MapOk(m: LevelMap) {
    forall code :: code in m ==> RecordOk(m[code])
  }

  // ---------------------------------------------------------------------
  // The model, updated in place

  class LeaderboardModel {
    var levelMap: LevelMap

    ghost predicate Valid()
      reads this
    {
      MapOk(levelMap)
    }

    constructor ()
      ensures Valid() && levelMap == map[]
    {
      levelMap := map[];
    }

    method OpenLevel(levelCode: string)
      requires Valid()
      modifies this
      ensures Valid()
      ensures levelMap == Opened(old(levelMap), levelCode)
    {
      if levelCode !in levelMap {
        levelMap := levelMap[levelCode := LevelRecord(false, None, [])];
      }
    }

    method StoreLevelHistory(levelCode: string, history: LevelHistory)
      requires Valid()
      modifies this
      ensures Valid()
      ensures levelMap == Stored(old(levelMap), levelCode, history)
    {
      if levelCode in levelMap {
        var record := levelMap[levelCode];
        record := record.(histories := record.histories + [history]);
        if |record.histories| > MAX_HISTORIES_PER_LEVEL {
          record := record.(histories := record.histories[..|record.histories| - 1]);
        }
        if history.isClear {
          match record.bestHistory {
            case Some(best) =>
              if best.time > history.time {
                record := record.(bestHistory := Some(history));
              }
            case None =>
              record := record.(bestHistory := Some(history));
          }
          if !record.isClear {
            record := record.(isClear := true);
          }
        }
        StoreKeepsRecordOk(levelMap[levelCode], history);
        levelMap := levelMap[levelCode := record];
      }
    }

    function LevelInfo(levelCode: string): (r: LevelRecord)
      reads this
      ensures levelCode in levelMap ==> r == levelMap[levelCode]
      ensures levelCode !in levelMap ==> r == EMPTY_RECORD
      ensures r == InfoOf(levelMap, levelCode)
    {
      if levelCode in levelMap then levelMap[levelCode] else LevelRecord(false, None, [])
    }
  }

  // ---------------------------------------------------------------------
  // Properties

  /** Opening a level twice is opening it once, and opening never changes
      what any level reports. */
  lemma OpenIdempotent(m: LevelMap, code: string)
    ensures Opened(Opened(m, code), code) == Opened(m, code)
    ensures code in Opened(m, code)
    ensures forall c :: InfoOf(Opened(m, code), c) == InfoOf(m, c)
    ensures forall c :: c != code ==> (c in Opened(m, code) <==> c in m)
  {
  }

  /** Storing never shrinks the set of levels nor adds to it. */
  lemma StoreKeepsLevels(m: LevelMap, code: string, h: LevelHistory)
    ensures Stored(m, code, h).Keys == m.Keys
    ensures forall c :: c != code ==> InfoOf(Stored(m, code, h), c) == InfoOf(m, c)
  {
  }

  /** One stored history: the cap holds, `is_clear` never goes back and
      turns on with the first clear history, a history that does not clear
      touches neither the best nor the flag, and the best only ever gets
      strictly faster. */
  lemma StoreKeepsRecordOk(r: LevelRecord, h: LevelHistory)
    requires RecordOk(r)
    ensures RecordOk(StoreRecord(r, h))
    ensures StoreRecord(r, h).isClear == (r.isClear || h.isClear)
    ensures !h.isClear ==> StoreRecord(r, h).bestHistory == r.bestHistory
    ensures r.bestHistory.Some? ==> StoreRecord(r, h).bestHistory.value.time <= r.bestHistory.value.time
    ensures |r.histories| < MAX_HISTORIES_PER_LEVEL ==> StoreRecord(r, h).histories == r.histories + [h]
    ensures |r.histories| == MAX_HISTORIES_PER_LEVEL ==> StoreRecord(r, h).histories == r.histories
  {
  }

  lemma StoreKeepsMapOk(m: LevelMap, code: string, h: LevelHistory)
    requires MapOk(m)
    ensures MapOk(Stored(m, code, h))
  {
    if code in m {
      StoreKeepsRecordOk(m[code], h);
    }
  }

  /** The record built by storing `hs` one by one into an opened level. */
  function StoreAll(hs: seq<LevelHistory>): LevelRecord {
    if hs == [] then EMPTY_RECORD else StoreRecord(StoreAll(hs[..|hs| - 1]), hs[|hs| - 1])
  }

  function Min(a: nat, b: nat): nat {
    if a < b then a else b
  }

  predicate HasClear(hs: seq<LevelHistory>) {
    exists k :: 0 <= k < |hs| && hs[k].isClear
  }

  /** `hs[k]` is the earliest of the fastest clear histories. */
  predicate IsBestAt(hs: seq<LevelHistory>, k: nat) {
    && k < |hs| && hs[k].isClear
    && (forall j :: 0 <= j < |hs| && hs[j].isClear ==> hs[k].time <= hs[j].time)
    && (forall j :: 0 <= j < k && hs[j].isClear ==> hs[k].time < hs[j].time)
  }

  /** After any sequence of plays of one level: the histories kept are the
      first nine played (later ones are dropped), the level is clear exactly
      when some play cleared it, and the best is the earliest of the fastest
      clears. */
  lemma {:induction false} StoreAllMeaning(hs: seq<LevelHistory>)
    ensures RecordOk(StoreAll(hs))
    ensures StoreAll(hs).histories == hs[..Min(|hs|, MAX_HISTORIES_PER_LEVEL)]
    ensures StoreAll(hs).isClear <==> HasClear(hs)
    ensures StoreAll(hs).bestHistory.Some? ==> exists k :: 0 <= k < |hs| && IsBestAt(hs, k) && StoreAll(hs).bestHistory.value == hs[k]
  {
    if hs != [] {
      var n := |hs| - 1;
      var init, h := hs[..n], hs[n];
      assert hs == init + [h];
      StoreAllMeaning(init);
      var r := StoreAll(init);
      StoreKeepsRecordOk(r, h);
      assert init[..Min(n, MAX_HISTORIES_PER_LEVEL)] == hs[..Min(n, MAX_HISTORIES_PER_LEVEL)];
      if n < MAX_HISTORIES_PER_LEVEL {
        assert hs[..n + 1] == hs[..n] + [h];
      }
      HasClearStep(init, h);
      BestStep(init, h);
    }
  }

  lemma HasClearStep(init: seq<LevelHistory>, h: LevelHistory)
    ensures HasClear(init + [h]) <==> HasClear(init) || h.isClear
  {
    if HasClear(init) {
      var k :| 0 <= k < |init| && init[k].isClear;
      assert (init + [h])[k] == init[k];
    }
    if h.isClear {
      assert (init + [h])[|init|] == h;
    }
    if HasClear(init + [h]) {
      var k :| 0 <= k < |init + [h]| && (init + [h])[k].isClear;
      if k < |init| {
        assert init[k] == (init + [h])[k];
      }
    }
  }

  lemma BestStep(init: seq<LevelHistory>, h: LevelHistory)
    requires RecordOk(StoreAll(init))
    requires StoreAll(init).isClear <==> HasClear(init)
    requires StoreAll(init).bestHistory.Some? ==>
      exists k :: 0 <= k < |init| && IsBestAt(init, k) && StoreAll(init).bestHistory.value == init[k]
    ensures StoreAll(init + [h]).bestHistory.Some? ==>
      exists k :: 0 <= k < |init + [h]| && IsBestAt(init + [h], k) && StoreAll(init + [h]).bestHistory.value == (init + [h])[k]
  {
    var hs := init + [h];
    assert hs[..|init|] == init;
    var r := StoreAll(init);
    assert StoreAll(hs) == StoreRecord(r, h);
    if r.bestHistory.Some? {
      var k :| 0 <= k < |init| && IsBestAt(init, k) && r.bestHistory.value == init[k];
      if h.isClear && init[k].time > h.time {
        BestReplaced(init, h, k);
        assert StoreAll(hs).bestHistory.value == hs[|init|];
      } else {
        BestKept(init, h, k);
        assert StoreAll(hs).bestHistory.value == hs[k];
      }
    } else if h.isClear {
      FirstClear(init, h);
      assert StoreAll(hs).bestHistory.value == hs[|init|];
    }
  }

  lemma BestReplaced(init: seq<LevelHistory>, h: LevelHistory, k: nat)
    requires IsBestAt(init, k) && h.isClear && init[k].time > h.time
    ensures IsBestAt(init + [h], |init|)
  {
    var hs := init + [h];
    forall j | 0 <= j < |hs| && hs[j].isClear
      ensures h.time <= hs[j].time
    {
      if j < |init| {
        assert hs[j] == init[j];
      }
    }
    forall j | 0 <= j < |init| && hs[j].isClear
      ensures h.time < hs[j].time
    {
      assert hs[j] == init[j];
    }
  }

  lemma BestKept(init: seq<LevelHistory>, h: LevelHistory, k: nat)
    requires IsBestAt(init, k) && !(h.isClear && init[k].time > h.time)
    ensures IsBestAt(init + [h], k)
  {
    var hs := init + [h];
    forall j | 0 <= j < |hs| && hs[j].isClear
      ensures hs[k].time <= hs[j].time
    {
      if j < |init| {
        assert hs[j] == init[j];
      }
    }
    forall j | 0 <= j < k && hs[j].isClear
      ensures hs[k].time < hs[j].time
    {
      assert hs[j] == init[j];
    }
  }

  lemma FirstClear(init: seq<LevelHistory>, h: LevelHistory)
    requires !HasClear(init) && h.isClear
    ensures IsBestAt(init + [h], |init|)
  {
    var hs := init + [h];
    forall j | 0 <= j < |init|
      ensures !hs[j].isClear
    {
      assert init[j] == hs[j];
    }
  }
}
