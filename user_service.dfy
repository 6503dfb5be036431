/**
 * The user-profile service: the locally cached profile id, the onboarding flag and the
 * score arithmetic around the remote `profiles` table.
 *
 * The device's key-value store is a map of strings, the remote table a sequence of
 * rows; whether a storage read or a remote query fails during one call is an input.
 */
module UserService {
  import opened Wrappers

  datatype UserProfile = UserProfile(
    id: string,
    nome: string,
    provincia: string,
    foto_url: Option<string>,
    pontuacao_total: int,
    acertos: nat,
    erros: nat,
    tempo_medio: int,
    sequencia_maxima: int,
    created_at: int,
    updated_at: int)

  /** The columns the service asks `updateProfile` to change; `None` leaves a column alone. */
  datatype ProfileUpdate = ProfileUpdate(
    pontuacao_total: Option<int>,
    acertos: Option<nat>,
    erros: Option<nat>,
    tempo_medio: Option<int>,
    sequencia_maxima: Option<int>)

  /** Whether the storage read and the remote queries of one call fail. */
  datatype Backend = Backend(readFails: bool, selectFails: bool, updateFails: bool)

  const ProfileIdKey: string := "@quiz_sou_da_banda/user_profile_id"
  const OnboardingKey: string := "@quiz_sou_da_banda/onboarding_complete"

  // ---------------------------------------------------------------- arithmetic

  /** `Math.round(a / b)` for a positive divisor: the nearest integer, halves rounded up. */
  function RoundDiv(a: int, b: int): (r: int)
    requires b > 0
    ensures 2 * b * r - b <= 2 * a < 2 * b * r + b
  {
    var r := (2 * a + b) / (2 * b);
    assert 2 * b * r <= 2 * a + b < 2 * b * r + 2 * b;
    r
  }

  /** The columns `updateScore` writes for one answer. */
  function ScoreUpdate(p: UserProfile, pontos: int, acertou: bool, tempo: int): (u: ProfileUpdate)
    ensures u.pontuacao_total == Some(p.pontuacao_total + pontos)
    ensures u.acertos.Some? && u.erros.Some? && u.tempo_medio.Some? && u.sequencia_maxima.None?
    ensures acertou ==> u.acertos.value == p.acertos + 1 && u.erros.value == p.erros
    ensures !acertou ==> u.acertos.value == p.acertos && u.erros.value == p.erros + 1
    ensures u.acertos.value + u.erros.value == p.acertos + p.erros + 1
    ensures u.tempo_medio.value
            == RoundDiv(p.tempo_medio * (p.acertos + p.erros) + tempo, p.acertos + p.erros + 1)
  {
    var novaPontuacao := p.pontuacao_total + pontos;
    var novoAcertos: nat := if acertou then p.acertos + 1 else p.acertos;
    var novosErros: nat := if !acertou then p.erros + 1 else p.erros;
    var totalRespostas := novoAcertos + novosErros;
    var tempoTotal := p.tempo_medio * (totalRespostas - 1) + tempo;
    ProfileUpdate(Some(novaPontuacao), Some(novoAcertos), Some(novosErros),
                  Some(RoundDiv(tempoTotal, totalRespostas)), None)
  }

  /** `updateMaxStreak`'s decision: a write of the new streak only when it beats the record. */
  function MaxStreakUpdate(p: UserProfile, streak: int): Option<ProfileUpdate> {
    if streak > p.sequencia_maxima then Some(ProfileUpdate(None, None, None, None, Some(streak)))
    else None
  }

  /** A row after an update at instant `now`. */
  function Apply(p: UserProfile, u: ProfileUpdate, now: int): UserProfile {
    p.(pontuacao_total := u.pontuacao_total.GetOr(p.pontuacao_total),
       acertos := u.acertos.GetOr(p.acertos),
       erros := u.erros.GetOr(p.erros),
       tempo_medio := u.tempo_medio.GetOr(p.tempo_medio),
       sequencia_maxima := u.sequencia_maxima.GetOr(p.sequencia_maxima),
       updated_at := now)
  }

  /** `update(...).eq('id', id)`: every row with that id is updated, the others are kept. */
  function UpdateRows(table: seq<UserProfile>, id: string, u: ProfileUpdate, now: int): (t: seq<UserProfile>)
    ensures |t| == |table|
    ensures forall i :: 0 <= i < |table| ==>
              t[i] == if table[i].id == id then Apply(table[i], u, now) else table[i]
  {
    seq(|table|, i requires 0 <= i < |table| => if table[i].id == id then Apply(table[i], u, now) else table[i])
  }

  /** The rows whose `id` matches. */
  function Matching(table: seq<UserProfile>, id: string): (r: seq<UserProfile>)
    ensures forall p :: p in r <==> p in table && p.id == id
    ensures (forall k :: 0 <= k < |table| ==> table[k].id != id) ==> r == []
  {
    if table == [] then []
    else (if table[0].id == id then [table[0]] else []) + Matching(table[1..], id)
  }

  /** Each row with the id occurs as often as in the table; other rows not at all. */
  lemma {:induction false} MatchingMultiplicity(table: seq<UserProfile>, id: string, p: UserProfile)
    ensures multiset(Matching(table, id))[p] == if p.id == id then multiset(table)[p] else 0
  {
    if table != [] {
      MatchingMultiplicity(table[1..], id, p);
      assert table == [table[0]] + table[1..];
    }
  }

  /** A row whose id no other row shares is the only match for that id. */
  lemma {:induction false} MatchingUniqueRow(table: seq<UserProfile>, i: nat)
    requires i < |table|
    requires forall j :: 0 <= j < |table| && j != i ==> table[j].id != table[i].id
    ensures Matching(table, table[i].id) == [table[i]]
  {
    var id := table[i].id;
    if i == 0 {
      assert forall k :: 0 <= k < |table[1..]| ==> table[1..][k].id != id by {
        forall k | 0 <= k < |table[1..]| ensures table[1..][k].id != id {
          assert table[1..][k] == table[k + 1];
        }
      }
    } else {
      assert forall j :: 0 <= j < |table[1..]| && j != i - 1 ==> table[1..][j].id != table[1..][i - 1].id by {
        forall j | 0 <= j < |table[1..]| && j != i - 1 ensures table[1..][j].id != table[1..][i - 1].id {
          assert table[1..][j] == table[j + 1];
        }
      }
      MatchingUniqueRow(table[1..], i - 1);
    }
  }

  /** `.maybeSingle()`: the row when exactly one matches; none, or an error, otherwise. */
  function SelectSingle(table: seq<UserProfile>, id: string): (r: Option<UserProfile>)
    ensures r.Some? <==> |Matching(table, id)| == 1
    ensures r.Some? ==> Matching(table, id) == [r.value] && r.value in table && r.value.id == id
  {
    var rows := Matching(table, id);
    if |rows| == 1 then Some(rows[0]) else None
  }

  /** How many rows have a strictly greater score (the `.gt('pontuacao_total', …)` query). */
  function CountAbove(table: seq<UserProfile>, score: int): (n: nat)
    ensures n <= |table|
  {
    if table == [] then 0
    else (if table[0].pontuacao_total > score then 1 else 0) + CountAbove(table[1..], score)
  }

  /** The rank position `getUserPosition` reports for a score. */
  function Position(table: seq<UserProfile>, score: int): (r: nat)
    ensures 1 <= r <= |table| + 1
  {
    CountAbove(table, score) + 1
  }

  /** A cached id counts only when it is a non-empty string (JavaScript truthiness). */
  predicate Truthy(id: Option<string>) {
    id.Some? && id.value != ""
  }

  function Lookup(storage: map<string, string>, key: string): Option<string> {
    if key in storage then Some(storage[key]) else None
  }

  /** What `getCurrentProfileId` returns from a cached id, the storage and the read outcome. */
  function ResolveId(cached: Option<string>, storage: map<string, string>, readFails: bool): Option<string> {
    if Truthy(cached) then cached
    else if readFails then None
    else Lookup(storage, ProfileIdKey)
  }

  /** The in-memory id after one resolution: kept when truthy or when the read fails, else the stored id. */
  function CachedAfter(cached: Option<string>, storage: map<string, string>, readFails: bool): Option<string> {
    if Truthy(cached) || readFails then cached else Lookup(storage, ProfileIdKey)
  }

  /** What `getCurrentProfile` returns. */
  function ResolveProfile(cached: Option<string>, storage: map<string, string>, table: seq<UserProfile>,
                          env: Backend): Option<UserProfile>
  {
    var id := ResolveId(cached, storage, env.readFails);
    if !Truthy(id) || env.selectFails then None else SelectSingle(table, id.value)
  }

  // ---------------------------------------------------------------- properties

  /**
   * Once an id has been resolved, later resolutions return it without reading storage:
   * a changed storage or a failing read does not change the answer.
   */
  lemma ResolvedIdIsSticky(cached: Option<string>, storage: map<string, string>,
                           later: map<string, string>, laterReadFails: bool)
    requires Truthy(ResolveId(cached, storage, false))
    ensures ResolveId(CachedAfter(cached, storage, false), later, laterReadFails) == ResolveId(cached, storage, false)
    ensures CachedAfter(CachedAfter(cached, storage, false), later, laterReadFails) == CachedAfter(cached, storage, false)
  {
  }


  lemma MulMonotone(n: int, a: int, b: int)
    requires n >= 0 && a <= b
    ensures n * a <= n * b
  {
  }

  /** Rounding a quotient that lies between two integers stays between them. */
  lemma RoundDivWithin(a: int, n: int, lo: int, hi: int)
    requires n > 0 && lo * n <= a <= hi * n
    ensures lo <= RoundDiv(a, n) <= hi
  {
    var r := RoundDiv(a, n);
    if r < lo {
      MulMonotone(2 * n, r, lo - 1);
      assert false;
    }
    if r > hi {
      MulMonotone(2 * n, hi + 1, r);
      assert false;
    }
  }

  /** A running total of `k` values and one more, all within bounds, is within `k + 1` times them. */
  lemma RunningTotalWithin(avg: int, k: nat, tempo: int, lo: int, hi: int)
    requires lo <= avg <= hi && lo <= tempo <= hi
    ensures lo * (k + 1) <= avg * k + tempo <= hi * (k + 1)
  {
    MulMonotone(k, lo, avg);
    MulMonotone(k, avg, hi);
  }

  /** The new average lies between the bounds of the old average and the new time. */
  lemma AverageWithinBounds(p: UserProfile, pontos: int, acertou: bool, tempo: int, lo: int, hi: int)
    requires lo <= p.tempo_medio <= hi && lo <= tempo <= hi
    ensures var m := ScoreUpdate(p, pontos, acertou, tempo).tempo_medio.value;
            lo <= m <= hi
  {
    var k := p.acertos + p.erros;
    RunningTotalWithin(p.tempo_medio, k, tempo, lo, hi);
    RoundDivWithin(p.tempo_medio * k + tempo, k + 1, lo, hi);
  }

  /** Answering in exactly the current average time leaves the average unchanged. */
  lemma AverageStableAtSameTime(p: UserProfile, pontos: int, acertou: bool)
    ensures ScoreUpdate(p, pontos, acertou, p.tempo_medio).tempo_medio == Some(p.tempo_medio)
  {
    var k := p.acertos + p.erros;
    RunningTotalWithin(p.tempo_medio, k, p.tempo_medio, p.tempo_medio, p.tempo_medio);
    RoundDivWithin(p.tempo_medio * k + p.tempo_medio, k + 1, p.tempo_medio, p.tempo_medio);
  }

  /** Applying `updateMaxStreak`'s write keeps the larger of the record and the streak. */
  lemma MaxStreakNeverDecreases(p: UserProfile, streak: int, now: int)
    ensures var q := if MaxStreakUpdate(p, streak).Some? then Apply(p, MaxStreakUpdate(p, streak).value, now) else p;
            && q.sequencia_maxima >= p.sequencia_maxima
            && q.sequencia_maxima >= streak
            && (q.sequencia_maxima == p.sequencia_maxima || q.sequencia_maxima == streak)
  {
  }

  /** A profile that is in the table is ranked within the table (it never beats itself). */
  lemma {:induction false} PositionWithinTable(table: seq<UserProfile>, p: UserProfile)
    requires p in table
    ensures Position(table, p.pontuacao_total) <= |table|
  {
    if table[0] != p {
      PositionWithinTable(table[1..], p);
    }
  }

  /** A higher score never ranks worse. */
  lemma {:induction false} PositionMonotone(table: seq<UserProfile>, low: int, high: int)
    requires low <= high
    ensures Position(table, high) <= Position(table, low)
  {
    if table != [] {
      PositionMonotone(table[1..], low, high);
    }
  }

  /** The top score of the table is ranked first. */
  lemma {:induction false} TopScoreRanksFirst(table: seq<UserProfile>, score: int)
    requires forall q :: q in table ==> q.pontuacao_total <= score
    ensures Position(table, score) == 1
  {
    if table != [] {
      TopScoreRanksFirst(table[1..], score);
    }
  }

  // ---------------------------------------------------------------- the service

  class UserService {
    var currentProfileId: Option<string>
    /** The device's key-value entries of the service (profile id, onboarding flag). */
    var storage: map<string, string>
    /** The remote `profiles` table. */
    var profiles: seq<UserProfile>

    constructor (storage: map<string, string>, profiles: seq<UserProfile>)
      ensures currentProfileId == None && this.storage == storage && this.profiles == profiles
    {
      currentProfileId := None;
      this.storage := storage;
      this.profiles := profiles;
    }

    /** True iff the stored flag is exactly the string `"true"`; a read error gives false. */
    method CheckOnboardingComplete(readFails: bool) returns (b: bool)
      ensures b <==> !readFails && Lookup(storage, OnboardingKey) == Some("true")
    {
      if readFails {
        return false;
      }
      var complete := Lookup(storage, OnboardingKey);
      b := complete == Some("true");
    }

    /** Returns the cached id when there is one; otherwise reads storage and caches what it finds. */
    method GetCurrentProfileId(readFails: bool) returns (id: Option<string>)
      modifies this
      ensures id == ResolveId(old(currentProfileId), storage, readFails)
      ensures Truthy(old(currentProfileId)) ==> id == old(currentProfileId)
      ensures currentProfileId == CachedAfter(old(currentProfileId), storage, readFails)
      ensures storage == old(storage) && profiles == old(profiles)
    {
      if Truthy(currentProfileId) {
        return currentProfileId;
      }
      if readFails {
        return None;
      }
      id := Lookup(storage, ProfileIdKey);
      currentProfileId := id;
    }

    method GetCurrentProfile(env: Backend) returns (p: Option<UserProfile>)
      modifies this
      ensures p == ResolveProfile(old(currentProfileId), storage, profiles, env)
      ensures currentProfileId == CachedAfter(old(currentProfileId), storage, env.readFails)
      ensures storage == old(storage) && profiles == old(profiles)
    {
      var profileId := GetCurrentProfileId(env.readFails);
      if !Truthy(profileId) || env.selectFails {
        return None;
      }
      p := SelectSingle(profiles, profileId.value);
    }

    /** Writes `u` to the current profile's row; without a profile id it writes nothing. */
    method UpdateProfile(u: ProfileUpdate, now: int, env: Backend) returns (ok: bool)
      modifies this
      ensures currentProfileId == CachedAfter(old(currentProfileId), storage, env.readFails)
      ensures var id := ResolveId(old(currentProfileId), storage, env.readFails);
              && ok == (Truthy(id) && !env.updateFails)
              && profiles == if ok then UpdateRows(old(profiles), id.value, u, now) else old(profiles)
      ensures storage == old(storage)
    {
      var profileId := GetCurrentProfileId(env.readFails);
      if !Truthy(profileId) {
        return false;
      }
      if env.updateFails {
        return false;
      }
      profiles := UpdateRows(profiles, profileId.value, u, now);
      ok := true;
    }

    /** Adds the points and the answer to the current profile's statistics. */
    method UpdateScore(pontos: int, acertou: bool, tempo: int, now: int, env: Backend)
      modifies this
      ensures currentProfileId == CachedAfter(old(currentProfileId), storage, env.readFails)
      ensures var p := ResolveProfile(old(currentProfileId), storage, old(profiles), env);
              profiles == if p.Some? && !env.updateFails
                          then UpdateRows(old(profiles), p.value.id, ScoreUpdate(p.value, pontos, acertou, tempo), now)
                          else old(profiles)
      ensures storage == old(storage)
    {
      var profile := GetCurrentProfile(env);
      if profile.None? {
        return;
      }
      var _ := UpdateProfile(ScoreUpdate(profile.value, pontos, acertou, tempo), now, env);
    }

    /** Records the streak only when it beats the stored maximum. */
    method UpdateMaxStreak(streak: int, now: int, env: Backend)
      modifies this
      ensures currentProfileId == CachedAfter(old(currentProfileId), storage, env.readFails)
      ensures var p := ResolveProfile(old(currentProfileId), storage, old(profiles), env);
              profiles == if p.Some? && streak > p.value.sequencia_maxima && !env.updateFails
                          then UpdateRows(old(profiles), p.value.id, MaxStreakUpdate(p.value, streak).value, now)
                          else old(profiles)
      ensures storage == old(storage)
    {
      var profile := GetCurrentProfile(env);
      if profile.None? {
        return;
      }
      if streak > profile.value.sequencia_maxima {
        var _ := UpdateProfile(ProfileUpdate(None, None, None, None, Some(streak)), now, env);
      }
    }

    /** 1 + the number of profiles with a strictly greater score; `None` without a profile or on error. */
    method GetUserPosition(env: Backend) returns (position: Option<nat>)
      modifies this
      ensures currentProfileId == CachedAfter(old(currentProfileId), storage, env.readFails)
      ensures var p := ResolveProfile(old(currentProfileId), storage, profiles, env);
              position == if p.Some? then Some(Position(profiles, p.value.pontuacao_total)) else None
      ensures storage == old(storage) && profiles == old(profiles)
    {
      var profile := GetCurrentProfile(env);
      if profile.None? {
        return None;
      }
      var above := CountAbove(profiles, profile.value.pontuacao_total);
      position := Some(above + 1);
    }

    /** Removes the id and the onboarding flag and forgets the cached id; an error is swallowed. */
    method ClearProfile(fails: bool)
      modifies this
      ensures storage == if fails then old(storage) else old(storage) - {ProfileIdKey, OnboardingKey}
      ensures currentProfileId == if fails then old(currentProfileId) else None
      ensures profiles == old(profiles)
    {
      if !fails {
        storage := storage - {ProfileIdKey, OnboardingKey};
        currentProfileId := None;
      }
    }
  }
}
