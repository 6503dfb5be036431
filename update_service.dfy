/**
 * The sync coordinator: decides whether remote content is newer, downloads the
 * config / categories / quizzes trio, records a sync status, keeps one repeating
 * timer and a listener registry.
 *
 * The network is an input: each fetch of one operation is an `Option` chosen by the
 * caller. The device storage's behaviour during an operation is an input too, and so
 * is the current instant `now`. Everything runs as sequential steps.
 */
module UpdateService {
  import opened Wrappers
  import opened QuizTypes
  import opened Cache

  /**
   * What the remote fetches of one operation return: `probe` is the config fetched by
   * the update check, the other three are the fetches of the download that may follow.
   */
  datatype Remote = Remote(
    probe: Option<AppConfig>,
    config: Option<AppConfig>,
    categorias: Option<seq<Categoria>>,
    quizzes: Option<seq<Quiz>>)

  /** How the device storage behaves during one operation. */
  datatype Storage = Storage(readFails: bool, failingWrites: set<Key>)

  /** A listener, known by identity. */
  type ListenerId = nat

  /** One call of a listener with the status it was given. */
  datatype Delivery = Delivery(listener: ListenerId, status: SyncStatus)

  /** A repeating timer: the runtime's handle and the period in hours. */
  datatype Timer = Timer(handle: nat, hours: int)

  /** The interval used when the cached config gives none (or gives 0). */
  const DefaultIntervalHours: int := 24

  // ---------------------------------------------------------------- decisions

  /**
   * The update decision: the remote config must be reachable, and then either there is
   * no local config, or the versions differ, or the remote one is more recent.
   */
  predicate NeedsUpdate(remote: Option<AppConfig>, local: Option<AppConfig>) {
    && remote.Some?
    && (|| local.None?
        || remote.value.versao != local.value.versao
        || remote.value.ultima_atualizacao > local.value.ultima_atualizacao)
  }

  /**
   * `calculateNextSync`: `hours` after `now`. `None` stands for the RangeError that
   * `toISOString` throws when the hours are missing (NaN) or the instant leaves the Date range.
   */
  function CalculateNextSync(now: int, hours: Option<int>): (r: Option<int>)
    ensures r.Some? <==> hours.Some? && -MaxTimeMs <= now + hours.value * HourMs <= MaxTimeMs
    ensures r.Some? ==> r.value - now == hours.value * HourMs
  {
    if hours.None? then None
    else
      var next := now + hours.value * HourMs;
      if -MaxTimeMs <= next <= MaxTimeMs then Some(next) else None
  }

  /** `config?.intervalo_atualizacao_horas || 24`. */
  function AutoUpdateHours(config: Option<AppConfig>): (h: int)
    ensures h != 0
    ensures h == DefaultIntervalHours <==>
              (|| config.None?
               || config.value.intervalo_atualizacao_horas.None?
               || config.value.intervalo_atualizacao_horas.value in {0, DefaultIntervalHours})
    ensures h != DefaultIntervalHours ==> config.Some? && config.value.intervalo_atualizacao_horas == Some(h)
  {
    match config
    case None => DefaultIntervalHours
    case Some(c) =>
      match c.intervalo_atualizacao_horas
      case None => DefaultIntervalHours
      case Some(hours) => if hours == 0 then DefaultIntervalHours else hours
  }

  /** The handles of the timer slot. */
  function TimerHandles(slot: Option<Timer>): set<nat> {
    if slot.Some? then {slot.value.handle} else {}
  }

  // ---------------------------------------------------------------- listeners

  /** `s` without `x`, the others in their order (deletion from an insertion-ordered Set). */
  function Without(s: seq<ListenerId>, x: ListenerId): (r: seq<ListenerId>)
    ensures forall y :: y in r <==> y in s && y != x
    ensures NoDuplicates(s) ==> NoDuplicates(r)
    ensures NoDuplicates(s) && x in s ==> |r| == |s| - 1
    ensures x !in s ==> r == s
  {
    if s == [] then []
    else if s[0] == x then Without(s[1..], x)
    else
      var t := Without(s[1..], x);
      assert NoDuplicates(s) ==> s[0] !in t;
      [s[0]] + t
  }

  /** Removal works piecewise, so the remaining listeners keep their relative order. */
  lemma {:induction false} WithoutAppend(a: seq<ListenerId>, b: seq<ListenerId>, x: ListenerId)
    ensures Without(a + b, x) == Without(a, x) + Without(b, x)
  {
    if a == [] {
      assert a + b == b;
    } else {
      assert (a + b)[0] == a[0] && (a + b)[1..] == a[1..] + b;
      WithoutAppend(a[1..], b, x);
    }
  }

  /** What notifying the listeners `ls` with `st` delivers: one call each, in registration order. */
  function Deliveries(ls: seq<ListenerId>, st: SyncStatus): (d: seq<Delivery>)
    ensures |d| == |ls|
    ensures forall i :: 0 <= i < |ls| ==> d[i] == Delivery(ls[i], st)
  {
    seq(|ls|, i requires 0 <= i < |ls| => Delivery(ls[i], st))
  }

  // ---------------------------------------------------------------- effects on the store

  /** What a sync step leaves in the store, and the status it published to listeners, if any. */
  datatype SyncEffect = SyncEffect(store: Store, published: Option<SyncStatus>)

  predicate Fetched(r: Remote) {
    r.config.Some? && r.categorias.Some? && r.quizzes.Some?
  }

  /** The four concurrent writes of a download; each lands unless its own write fails. */
  function CommitContent(s: Store, r: Remote, now: int, failing: set<Key>): Store
    requires Fetched(r)
  {
    var s1 := Write(s, ConfigKey, ConfigValue(r.config.value), ConfigKey in failing);
    var s2 := Write(s1, CategoriasKey, CategoriasValue(r.categorias.value), CategoriasKey in failing);
    var s3 := Write(s2, QuizzesKey, QuizzesValue(r.quizzes.value), QuizzesKey in failing);
    Write(s3, LastSyncKey, LastSyncValue(now), LastSyncKey in failing)
  }

  /** One of the four concurrent content writes throws. */
  predicate ContentWriteFails(failing: set<Key>) {
    ConfigKey in failing || CategoriasKey in failing || QuizzesKey in failing || LastSyncKey in failing
  }

  /** The effect of `downloadInitialData`. */
  function Download(s: Store, r: Remote, env: Storage, now: int): SyncEffect {
    if !Fetched(r) then SyncEffect(s, None)
    else
      var committed := CommitContent(s, r, now, env.failingWrites);
      var next := CalculateNextSync(now, r.config.value.intervalo_atualizacao_horas);
      if ContentWriteFails(env.failingWrites) || next.None? || SyncStatusKey in env.failingWrites then
        SyncEffect(committed, None)
      else
        var status := SyncStatus(now, r.config.value.versao, next.value, false);
        SyncEffect(committed[SyncStatusKey := SyncStatusValue(status)], Some(status))
  }

  /** The effect of `checkAndUpdate` (and so of `manualUpdate` and of a timer firing). */
  function CheckAndUpdateEffect(s: Store, r: Remote, env: Storage, now: int): SyncEffect {
    if NeedsUpdate(r.probe, Read(env.readFails, ConfigIn(s))) then Download(s, r, env, now)
    else SyncEffect(s, None)
  }

  /** The effect of `initialize` on the store: download when nothing is cached, else check first. */
  function InitializeEffect(s: Store, r: Remote, env: Storage, now: int): SyncEffect {
    if env.readFails || !HasData(s) then Download(s, r, env, now)
    else CheckAndUpdateEffect(s, r, env, now)
  }

  /** The listener calls a sync step makes. */
  function Published(ls: seq<ListenerId>, e: SyncEffect): seq<Delivery> {
    if e.published.Some? then Deliveries(ls, e.published.value) else []
  }

  // ---------------------------------------------------------------- properties

  /** An unreachable remote config never triggers an update. */
  lemma UnreachableRemoteNeverUpdates(local: Option<AppConfig>)
    ensures !NeedsUpdate(None, local)
  {
  }

  /** A reachable remote config with nothing cached always triggers an update. */
  lemma NoLocalConfigUpdates(remote: AppConfig)
    ensures NeedsUpdate(Some(remote), None)
  {
  }

  /** A version change alone triggers an update, whatever the timestamps say. */
  lemma VersionChangeAloneTriggers(remote: AppConfig, local: AppConfig)
    requires remote.versao != local.versao
    requires remote.ultima_atualizacao <= local.ultima_atualizacao
    ensures NeedsUpdate(Some(remote), Some(local))
  {
  }

  /** A newer remote timestamp alone triggers an update, with the version unchanged. */
  lemma NewerTimestampAloneTriggers(remote: AppConfig, local: AppConfig)
    requires remote.versao == local.versao
    requires remote.ultima_atualizacao > local.ultima_atualizacao
    ensures NeedsUpdate(Some(remote), Some(local))
  {
  }

  /**
   * Same version and a remote timestamp that is not newer: the check does not update,
   * and the cached content is left exactly as it was.
   */
  lemma SameVersionOlderTimestampKeepsCache(s: Store, r: Remote, env: Storage, now: int)
    requires !env.readFails && ConfigIn(s).Some? && r.probe.Some?
    requires r.probe.value.versao == ConfigIn(s).value.versao
    requires r.probe.value.ultima_atualizacao <= ConfigIn(s).value.ultima_atualizacao
    ensures CheckAndUpdateEffect(s, r, env, now) == SyncEffect(s, None)
  {
  }

  /** If any of the three fetches is missing, the download writes nothing and notifies nobody. */
  lemma DownloadAllOrNothing(s: Store, r: Remote, env: Storage, now: int)
    requires !Fetched(r)
    ensures Download(s, r, env, now) == SyncEffect(s, None)
  {
  }

  /** A download succeeds exactly when all fetches arrive, every write lands and the next sync is representable. */
  lemma DownloadSucceedsIff(s: Store, r: Remote, env: Storage, now: int)
    ensures Download(s, r, env, now).published.Some? <==>
              && Fetched(r)
              && !ContentWriteFails(env.failingWrites)
              && SyncStatusKey !in env.failingWrites
              && CalculateNextSync(now, r.config.value.intervalo_atualizacao_horas).Some?
  {
  }

  /**
   * After a successful download the cache holds the fetched trio, the last-sync instant
   * and an online status carrying the new config's version; that status is what is published.
   */
  lemma DownloadSuccessCommitsTrio(s: Store, r: Remote, env: Storage, now: int)
    requires Download(s, r, env, now).published.Some?
    ensures var e := Download(s, r, env, now);
            var st := e.published.value;
            && Fetched(r)
            && ConfigIn(e.store) == r.config
            && CategoriasIn(e.store) == r.categorias
            && QuizzesIn(e.store) == r.quizzes
            && LastSyncIn(e.store) == Some(now)
            && SyncStatusIn(e.store) == Some(st)
            && st.version == r.config.value.versao && !st.isOffline && st.lastSync == now
            && r.config.value.intervalo_atualizacao_horas.Some?
            && st.nextSync == now + r.config.value.intervalo_atualizacao_horas.value * HourMs
            && (HasData(e.store) <==> |r.quizzes.value| > 0)
  {
  }

  /**
   * A config without an update interval: the content trio is written, but computing the
   * next sync throws, so no status is written, nobody is notified and the download reports failure.
   */
  lemma MissingIntervalWritesContentButFails(s: Store, r: Remote, env: Storage, now: int)
    requires Fetched(r) && r.config.value.intervalo_atualizacao_horas.None?
    requires env.failingWrites == {}
    ensures var e := Download(s, r, env, now);
            && e.published.None?
            && ConfigIn(e.store) == r.config && QuizzesIn(e.store) == r.quizzes
            && SyncStatusIn(e.store) == SyncStatusIn(s)
  {
  }

  /** A download either leaves the sync status alone or records the online status it published. */
  lemma DownloadNeverRecordsOffline(s: Store, r: Remote, env: Storage, now: int)
    ensures var e := Download(s, r, env, now);
            || (SyncStatusIn(e.store) == SyncStatusIn(s) && e.published.None?)
            || (SyncStatusIn(e.store) == e.published && !e.published.value.isOffline)
  {
  }

  /**
   * `initialize` never records the offline `'unknown'` status: its inner steps swallow
   * their errors, so the status is either untouched or the online one just published.
   */
  lemma InitializeNeverRecordsOffline(s: Store, r: Remote, env: Storage, now: int)
    ensures var e := InitializeEffect(s, r, env, now);
            || (SyncStatusIn(e.store) == SyncStatusIn(s) && e.published.None?)
            || (&& SyncStatusIn(e.store) == e.published && !e.published.value.isOffline
                && Fetched(r) && e.published.value.version == r.config.value.versao)
  {
    DownloadNeverRecordsOffline(s, r, env, now);
    if Download(s, r, env, now).published.Some? {
      DownloadSuccessCommitsTrio(s, r, env, now);
    }
  }

  /** A first run whose download fails leaves the store, sync status included, as it was. */
  lemma FailedFirstDownloadLeavesStore(s: Store, r: Remote, env: Storage, now: int)
    requires !HasData(s) && !Fetched(r)
    ensures InitializeEffect(s, r, env, now) == SyncEffect(s, None)
  {
  }

  /** A first run with a reachable remote and working storage ends online with the remote version. */
  lemma FreshInstallOnline(s: Store, r: Remote, now: int, hours: int)
    requires !HasData(s) && Fetched(r)
    requires r.config.value.intervalo_atualizacao_horas == Some(hours)
    requires -MaxTimeMs <= now + hours * HourMs <= MaxTimeMs
    ensures var e := InitializeEffect(s, r, Storage(false, {}), now);
            && e.published.Some?
            && SyncStatusIn(e.store) == e.published
            && e.published.value.version == r.config.value.versao
            && !e.published.value.isOffline
  {
  }

  /** A missing or zero interval arms the timer for 24 hours. */
  lemma DefaultInterval(config: Option<AppConfig>)
    requires config.None? || config.value.intervalo_atualizacao_horas in {None, Some(0)}
    ensures AutoUpdateHours(config) == 24
  {
  }

  /** Each registered listener is called exactly once per notification, with the full status. */
  lemma EachListenerCalledOnce(ls: seq<ListenerId>, st: SyncStatus, l: ListenerId)
    requires NoDuplicates(ls) && l in ls
    ensures var d := Deliveries(ls, st);
            exists i :: 0 <= i < |d| && d[i] == Delivery(l, st)
                        && forall j :: 0 <= j < |d| && j != i ==> d[j].listener != l
  {
    var i :| 0 <= i < |ls| && ls[i] == l;
    var d := Deliveries(ls, st);
    assert d[i] == Delivery(l, st);
  }

  /** A listener that is not registered is never called. */
  lemma UnregisteredNeverCalled(ls: seq<ListenerId>, st: SyncStatus, l: ListenerId)
    requires l !in ls
    ensures forall i :: 0 <= i < |Deliveries(ls, st)| ==> Deliveries(ls, st)[i].listener != l
  {
  }

  // ---------------------------------------------------------------- the coordinator

  class UpdateService {
    const cache: CacheService
    /** The timer slot `updateInterval`. */
    var updateInterval: Option<Timer>
    /** The runtime's table of repeating timers that are still firing. */
    var liveTimers: set<nat>
    /** The handle the runtime gives the next timer (handles are positive, hence truthy). */
    var nextHandle: nat
    /** The listener set, in insertion order. */
    var listeners: seq<ListenerId>
    /** Every listener call made so far, in order. */
    var delivered: seq<Delivery>

    /** At most one timer fires, and it is the one in the slot; listeners are a set. */
    predicate Valid()
      reads this
    {
      && liveTimers == TimerHandles(updateInterval)
      && 0 < nextHandle
      && (forall h :: h in liveTimers ==> 0 < h < nextHandle)
      && NoDuplicates(listeners)
    }

    constructor (cache: CacheService)
      ensures Valid() && this.cache == cache
      ensures updateInterval == None && liveTimers == {} && listeners == [] && delivered == []
    {
      this.cache := cache;
      updateInterval := None;
      liveTimers := {};
      nextHandle := 1;
      listeners := [];
      delivered := [];
    }

    /** `shouldUpdate`: compares the fetched remote config with the cached one. */
    method ShouldUpdate(probe: Option<AppConfig>, readFails: bool) returns (b: bool)
      ensures b == NeedsUpdate(probe, Read(readFails, ConfigIn(cache.store)))
    {
      var local := cache.GetConfig(readFails);
      if probe.None? {
        return false;
      }
      if local.None? {
        return true;
      }
      b := probe.value.versao != local.value.versao
        || probe.value.ultima_atualizacao > local.value.ultima_atualizacao;
    }

    /** `notifyListeners`: calls every registered listener with the same status, in order. */
    method NotifyListeners(status: SyncStatus)
      modifies this
      ensures delivered == old(delivered) + Deliveries(listeners, status)
      ensures listeners == old(listeners) && updateInterval == old(updateInterval)
      ensures liveTimers == old(liveTimers) && nextHandle == old(nextHandle)
    {
      var i := 0;
      while i < |listeners|
        invariant 0 <= i <= |listeners|
        invariant delivered == old(delivered) + Deliveries(listeners[..i], status)
        invariant listeners == old(listeners) && updateInterval == old(updateInterval)
        invariant liveTimers == old(liveTimers) && nextHandle == old(nextHandle)
      {
        delivered := delivered + [Delivery(listeners[i], status)];
        assert Deliveries(listeners[..i + 1], status) == Deliveries(listeners[..i], status) + [Delivery(listeners[i], status)];
        i := i + 1;
      }
      assert listeners[..i] == listeners;
    }

    /**
     * `downloadInitialData`: all three fetches or nothing; then the four concurrent writes,
     * the sync status and the notification. Any thrown error ends it with `false`.
     */
    method DownloadInitialData(r: Remote, env: Storage, now: int) returns (ok: bool)
      requires Valid()
      modifies this, cache
      ensures Valid()
      ensures var e := Download(old(cache.store), r, env, now);
              && cache.store == e.store
              && ok == e.published.Some?
              && delivered == old(delivered) + Published(listeners, e)
      ensures listeners == old(listeners) && updateInterval == old(updateInterval)
      ensures liveTimers == old(liveTimers) && nextHandle == old(nextHandle)
    {
      if r.config.None? || r.categorias.None? || r.quizzes.None? {
        return false;
      }
      var config, categorias, quizzes := r.config.value, r.categorias.value, r.quizzes.value;
      var o1 := cache.SaveConfig(config, ConfigKey in env.failingWrites);
      var o2 := cache.SaveCategorias(categorias, CategoriasKey in env.failingWrites);
      var o3 := cache.SaveQuizzes(quizzes, QuizzesKey in env.failingWrites);
      var o4 := cache.UpdateLastSync(now, LastSyncKey in env.failingWrites);
      if o1.Fail? || o2.Fail? || o3.Fail? || o4.Fail? {
        return false;
      }
      var next := CalculateNextSync(now, config.intervalo_atualizacao_horas);
      if next.None? {
        return false;
      }
      var status := SyncStatus(now, config.versao, next.value, false);
      var o5 := cache.SaveSyncStatus(status, SyncStatusKey in env.failingWrites);
      if o5.Fail? {
        return false;
      }
      NotifyListeners(status);
      ok := true;
    }

    /** `checkAndUpdate`: downloads only when the update check says so. */
    method CheckAndUpdate(r: Remote, env: Storage, now: int) returns (ok: bool)
      requires Valid()
      modifies this, cache
      ensures Valid()
      ensures var e := CheckAndUpdateEffect(old(cache.store), r, env, now);
              && cache.store == e.store
              && ok == e.published.Some?
              && delivered == old(delivered) + Published(listeners, e)
      ensures listeners == old(listeners) && updateInterval == old(updateInterval)
      ensures liveTimers == old(liveTimers) && nextHandle == old(nextHandle)
    {
      var should := ShouldUpdate(r.probe, env.readFails);
      if !should {
        return false;
      }
      ok := DownloadInitialData(r, env, now);
    }

    /** `manualUpdate`: the same sequence as the scheduled check, on demand. */
    method ManualUpdate(r: Remote, env: Storage, now: int) returns (ok: bool)
      requires Valid()
      modifies this, cache
      ensures Valid()
      ensures var e := CheckAndUpdateEffect(old(cache.store), r, env, now);
              && cache.store == e.store
              && ok == e.published.Some?
              && delivered == old(delivered) + Published(listeners, e)
      ensures listeners == old(listeners) && updateInterval == old(updateInterval)
      ensures liveTimers == old(liveTimers) && nextHandle == old(nextHandle)
    {
      ok := CheckAndUpdate(r, env, now);
    }

    /** `setupAutoUpdate`: clears the armed timer, if any, and arms a fresh one. */
    method SetupAutoUpdate(readFails: bool)
      requires Valid()
      modifies this
      ensures Valid()
      ensures updateInterval == Some(Timer(old(nextHandle), AutoUpdateHours(Read(readFails, ConfigIn(cache.store)))))
      ensures liveTimers == {old(nextHandle)} && old(TimerHandles(updateInterval)) !! liveTimers
      ensures nextHandle == old(nextHandle) + 1
      ensures listeners == old(listeners) && delivered == old(delivered)
    {
      var config := cache.GetConfig(readFails);
      var interval := AutoUpdateHours(config);
      if updateInterval.Some? {
        liveTimers := liveTimers - {updateInterval.value.handle};
      }
      var handle := nextHandle;
      nextHandle := nextHandle + 1;
      liveTimers := liveTimers + {handle};
      updateInterval := Some(Timer(handle, interval));
    }

    /**
     * `initialize`: download when nothing is cached, otherwise check for an update; then
     * arm the timer. Neither inner step lets an error escape, so the offline status of
     * the surrounding catch block is never written.
     */
    method Initialize(r: Remote, env: Storage, now: int)
      requires Valid()
      modifies this, cache
      ensures Valid()
      ensures var e := InitializeEffect(old(cache.store), r, env, now);
              && cache.store == e.store
              && delivered == old(delivered) + Published(listeners, e)
      ensures updateInterval == Some(Timer(old(nextHandle), AutoUpdateHours(Read(env.readFails, ConfigIn(cache.store)))))
      ensures liveTimers == {old(nextHandle)} && listeners == old(listeners)
    {
      var hasCached := cache.HasCachedData(env.readFails);
      if !hasCached {
        var _ := DownloadInitialData(r, env, now);
      } else {
        var _ := CheckAndUpdate(r, env, now);
      }
      SetupAutoUpdate(env.readFails);
    }

    /** One firing of the armed timer runs the scheduled update check. */
    method FireTimer(r: Remote, env: Storage, now: int) returns (ok: bool)
      requires Valid() && updateInterval.Some?
      modifies this, cache
      ensures Valid()
      ensures var e := CheckAndUpdateEffect(old(cache.store), r, env, now);
              && cache.store == e.store
              && ok == e.published.Some?
              && delivered == old(delivered) + Published(listeners, e)
      ensures updateInterval == old(updateInterval) && liveTimers == old(liveTimers)
      ensures listeners == old(listeners) && nextHandle == old(nextHandle)
    {
      ok := CheckAndUpdate(r, env, now);
    }

    method AddListener(l: ListenerId)
      requires Valid()
      modifies this
      ensures Valid()
      ensures listeners == if l in old(listeners) then old(listeners) else old(listeners) + [l]
      ensures updateInterval == old(updateInterval) && liveTimers == old(liveTimers)
      ensures delivered == old(delivered) && nextHandle == old(nextHandle)
    {
      if l !in listeners {
        listeners := listeners + [l];
      }
    }

    method RemoveListener(l: ListenerId)
      requires Valid()
      modifies this
      ensures Valid()
      ensures listeners == Without(old(listeners), l) && l !in listeners
      ensures updateInterval == old(updateInterval) && liveTimers == old(liveTimers)
      ensures delivered == old(delivered) && nextHandle == old(nextHandle)
    {
      listeners := Without(listeners, l);
    }

    /** `getSyncStatus`: the cached status, soft-failing on a read error. */
    method GetSyncStatus(readFails: bool) returns (s: Option<SyncStatus>)
      ensures s == Read(readFails, SyncStatusIn(cache.store))
    {
      s := cache.GetSyncStatus(readFails);
    }

    /** `dispose`: clears the timer and empties the listener set. */
    method Dispose()
      requires Valid()
      modifies this
      ensures Valid()
      ensures updateInterval == None && liveTimers == {} && listeners == []
      ensures delivered == old(delivered) && nextHandle == old(nextHandle)
    {
      if updateInterval.Some? {
        liveTimers := liveTimers - {updateInterval.value.handle};
        updateInterval := None;
      }
      listeners := [];
    }
  }
}
