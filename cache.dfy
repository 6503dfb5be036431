/**
 * The local cache: five fixed keys of the device's key-value store. Reads fail soft
 * (absent value or storage error give `None`); writes fail loud (the error is rethrown).
 * JSON (de)serialisation is the identity: a stored record is read back as written.
 */
module Cache {
  import opened Wrappers
  import opened QuizTypes

  datatype Key = ConfigKey | CategoriasKey | QuizzesKey | SyncStatusKey | LastSyncKey

  const AllKeys: set<Key> := {ConfigKey, CategoriasKey, QuizzesKey, SyncStatusKey, LastSyncKey}

  /** The storage key strings. */
  function KeyName(k: Key): string {
    match k
    case ConfigKey => "@quiz_sou_da_banda/config"
    case CategoriasKey => "@quiz_sou_da_banda/categorias"
    case QuizzesKey => "@quiz_sou_da_banda/quizzes"
    case SyncStatusKey => "@quiz_sou_da_banda/sync_status"
    case LastSyncKey => "@quiz_sou_da_banda/last_sync"
  }

  /** What a key holds. A value of the wrong kind under a key reads as unparseable. */
  datatype Value =
    | ConfigValue(config: AppConfig)
    | CategoriasValue(categorias: seq<Categoria>)
    | QuizzesValue(quizzes: seq<Quiz>)
    | SyncStatusValue(status: SyncStatus)
    | LastSyncValue(stamp: int)

  type Store = map<Key, Value>

  function ConfigIn(s: Store): Option<AppConfig> {
    if ConfigKey in s && s[ConfigKey].ConfigValue? then Some(s[ConfigKey].config) else None
  }

  function CategoriasIn(s: Store): Option<seq<Categoria>> {
    if CategoriasKey in s && s[CategoriasKey].CategoriasValue? then Some(s[CategoriasKey].categorias) else None
  }

  function QuizzesIn(s: Store): Option<seq<Quiz>> {
    if QuizzesKey in s && s[QuizzesKey].QuizzesValue? then Some(s[QuizzesKey].quizzes) else None
  }

  function SyncStatusIn(s: Store): Option<SyncStatus> {
    if SyncStatusKey in s && s[SyncStatusKey].SyncStatusValue? then Some(s[SyncStatusKey].status) else None
  }

  function LastSyncIn(s: Store): Option<int> {
    if LastSyncKey in s && s[LastSyncKey].LastSyncValue? then Some(s[LastSyncKey].stamp) else None
  }

  /** Config present, and quizzes present and non-empty. */
  predicate HasData(s: Store) {
    ConfigIn(s).Some? && QuizzesIn(s).Some? && |QuizzesIn(s).value| > 0
  }

  /** A read that may fail: a storage error reads as absent. */
  function Read<T>(readFails: bool, stored: Option<T>): Option<T> {
    if readFails then None else stored
  }

  /** A write that may fail: the store is left as it was and the error is rethrown. */
  function Write(s: Store, k: Key, v: Value, fails: bool): Store {
    if fails then s else s[k := v]
  }

  class CacheService {
    var store: Store

    /** A cache over whatever the device storage already holds. */
    constructor (persisted: Store)
      ensures store == persisted
    {
      store := persisted;
    }

    method Save(k: Key, v: Value, fails: bool) returns (o: Outcome)
      modifies this
      ensures o == if fails then Fail else Pass
      ensures store == Write(old(store), k, v, fails)
    {
      if fails {
        o := Fail;
      } else {
        store := store[k := v];
        o := Pass;
      }
    }

    method SaveConfig(config: AppConfig, fails: bool) returns (o: Outcome)
      modifies this
      ensures o == if fails then Fail else Pass
      ensures store == Write(old(store), ConfigKey, ConfigValue(config), fails)
    {
      o := Save(ConfigKey, ConfigValue(config), fails);
    }

    method GetConfig(readFails: bool) returns (r: Option<AppConfig>)
      ensures r == Read(readFails, ConfigIn(store))
    {
      if readFails {
        r := None;
      } else if ConfigKey in store && store[ConfigKey].ConfigValue? {
        r := Some(store[ConfigKey].config);
      } else {
        r := None;
      }
    }

    method SaveCategorias(categorias: seq<Categoria>, fails: bool) returns (o: Outcome)
      modifies this
      ensures o == if fails then Fail else Pass
      ensures store == Write(old(store), CategoriasKey, CategoriasValue(categorias), fails)
    {
      o := Save(CategoriasKey, CategoriasValue(categorias), fails);
    }

    method GetCategorias(readFails: bool) returns (r: Option<seq<Categoria>>)
      ensures r == Read(readFails, CategoriasIn(store))
    {
      if readFails {
        r := None;
      } else if CategoriasKey in store && store[CategoriasKey].CategoriasValue? {
        r := Some(store[CategoriasKey].categorias);
      } else {
        r := None;
      }
    }

    method SaveQuizzes(quizzes: seq<Quiz>, fails: bool) returns (o: Outcome)
      modifies this
      ensures o == if fails then Fail else Pass
      ensures store == Write(old(store), QuizzesKey, QuizzesValue(quizzes), fails)
    {
      o := Save(QuizzesKey, QuizzesValue(quizzes), fails);
    }

    method GetQuizzes(readFails: bool) returns (r: Option<seq<Quiz>>)
      ensures r == Read(readFails, QuizzesIn(store))
    {
      if readFails {
        r := None;
      } else if QuizzesKey in store && store[QuizzesKey].QuizzesValue? {
        r := Some(store[QuizzesKey].quizzes);
      } else {
        r := None;
      }
    }

    method SaveSyncStatus(status: SyncStatus, fails: bool) returns (o: Outcome)
      modifies this
      ensures o == if fails then Fail else Pass
      ensures store == Write(old(store), SyncStatusKey, SyncStatusValue(status), fails)
    {
      o := Save(SyncStatusKey, SyncStatusValue(status), fails);
    }

    method GetSyncStatus(readFails: bool) returns (r: Option<SyncStatus>)
      ensures r == Read(readFails, SyncStatusIn(store))
    {
      if readFails {
        r := None;
      } else if SyncStatusKey in store && store[SyncStatusKey].SyncStatusValue? {
        r := Some(store[SyncStatusKey].status);
      } else {
        r := None;
      }
    }

    /** Stores `now` (the current instant) under the last-sync key. */
    method UpdateLastSync(now: int, fails: bool) returns (o: Outcome)
      modifies this
      ensures o == if fails then Fail else Pass
      ensures store == Write(old(store), LastSyncKey, LastSyncValue(now), fails)
    {
      o := Save(LastSyncKey, LastSyncValue(now), fails);
    }

    method GetLastSync(readFails: bool) returns (r: Option<int>)
      ensures r == Read(readFails, LastSyncIn(store))
    {
      if readFails {
        r := None;
      } else if LastSyncKey in store && store[LastSyncKey].LastSyncValue? {
        r := Some(store[LastSyncKey].stamp);
      } else {
        r := None;
      }
    }

    /** Removes all five keys at once; a storage error is rethrown and removes nothing. */
    method ClearAll(fails: bool) returns (o: Outcome)
      modifies this
      ensures o == if fails then Fail else Pass
      ensures store == if fails then old(store) else old(store) - AllKeys
    {
      if fails {
        o := Fail;
      } else {
        store := store - AllKeys;
        o := Pass;
      }
    }

    /** True iff both reads succeed, config is present and quizzes is present and non-empty. */
    method HasCachedData(readFails: bool) returns (b: bool)
      ensures b <==> !readFails && HasData(store)
    {
      var config := GetConfig(readFails);
      var quizzes := GetQuizzes(readFails);
      b := config.Some? && quizzes.Some? && |quizzes.value| > 0;
    }
  }

  /** The five key strings are pairwise distinct, so no two record kinds share a slot. */
  lemma KeyNamesDistinct(a: Key, b: Key)
    requires a != b
    ensures KeyName(a) != KeyName(b)
  {
    assert KeyName(a)[19..21] == TagOf(a) && KeyName(b)[19..21] == TagOf(b);
  }

  /** The two characters that follow the common `@quiz_sou_da_banda/` prefix. */
  function TagOf(k: Key): (t: string)
    ensures |KeyName(k)| >= 21 && KeyName(k)[19..21] == t
  {
    match k
    case ConfigKey => "co"
    case CategoriasKey => "ca"
    case QuizzesKey => "qu"
    case SyncStatusKey => "sy"
    case LastSyncKey => "la"
  }

  /** A successful save of a config is read back unchanged; every other record kind is untouched. */
  lemma SaveConfigThenGet(s: Store, c: AppConfig)
    ensures var t := Write(s, ConfigKey, ConfigValue(c), false);
            && Read(false, ConfigIn(t)) == Some(c)
            && CategoriasIn(t) == CategoriasIn(s) && QuizzesIn(t) == QuizzesIn(s)
            && SyncStatusIn(t) == SyncStatusIn(s) && LastSyncIn(t) == LastSyncIn(s)
  {
  }

  lemma SaveCategoriasThenGet(s: Store, c: seq<Categoria>)
    ensures var t := Write(s, CategoriasKey, CategoriasValue(c), false);
            && Read(false, CategoriasIn(t)) == Some(c)
            && ConfigIn(t) == ConfigIn(s) && QuizzesIn(t) == QuizzesIn(s)
            && SyncStatusIn(t) == SyncStatusIn(s) && LastSyncIn(t) == LastSyncIn(s)
  {
  }

  lemma SaveQuizzesThenGet(s: Store, q: seq<Quiz>)
    ensures var t := Write(s, QuizzesKey, QuizzesValue(q), false);
            && Read(false, QuizzesIn(t)) == Some(q)
            && ConfigIn(t) == ConfigIn(s) && CategoriasIn(t) == CategoriasIn(s)
            && SyncStatusIn(t) == SyncStatusIn(s) && LastSyncIn(t) == LastSyncIn(s)
  {
  }

  lemma SaveSyncStatusThenGet(s: Store, st: SyncStatus)
    ensures var t := Write(s, SyncStatusKey, SyncStatusValue(st), false);
            && Read(false, SyncStatusIn(t)) == Some(st)
            && ConfigIn(t) == ConfigIn(s) && CategoriasIn(t) == CategoriasIn(s)
            && QuizzesIn(t) == QuizzesIn(s) && LastSyncIn(t) == LastSyncIn(s)
            && HasData(t) == HasData(s)
  {
  }

  /** After a successful clearAll every getter finds nothing and there is no cached data. */
  lemma ClearAllEmpties(s: Store)
    ensures var t := s - AllKeys;
            && t == map[]
            && ConfigIn(t) == None && CategoriasIn(t) == None && QuizzesIn(t) == None
            && SyncStatusIn(t) == None && LastSyncIn(t) == None
            && !HasData(t)
  {
    var t := s - AllKeys;
    forall k: Key ensures k in AllKeys {
      match k
      case ConfigKey =>
      case CategoriasKey =>
      case QuizzesKey =>
      case SyncStatusKey =>
      case LastSyncKey =>
    }
    assert t.Keys == {};
  }

  /** hasCachedData needs both a config and a non-empty quiz list; neither alone suffices. */
  lemma HasDataNeedsNonEmptyQuizzes(s: Store, c: AppConfig)
    ensures !HasData(Write(s, QuizzesKey, QuizzesValue([]), false))
    ensures HasData(s) ==> HasData(Write(s, CategoriasKey, CategoriasValue([]), false))
    ensures !HasData(s - {ConfigKey})
  {
  }
}
