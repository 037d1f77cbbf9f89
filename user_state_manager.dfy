/**
 * The per-user conversation state of `services/user_state_manager.py`: an
 * in-memory cache over one JSON record per user, reset after a day without
 * activity and kept clean while the conversation is in its first phase.
 *
 * The state directory is a map from user id to record, and `datetime.now()`
 * is an integer clock reading in seconds passed to each operation.
 */
module UserStates {
  import opened Wrappers

  /** Seconds in the 24 hours after which a conversation expires. */
  const Day: int := 86400

  const Inicial: string := "inicial"

  /**
   * A complete state dictionary. `ultimoAcesso` is `None` when the key is
   * missing or holds a text `datetime.fromisoformat` cannot parse.
   */
  datatype State = State(
    fase: string,
    nome: Option<string>,
    idade: Option<int>,
    nivelAlfabetizacao: Option<string>,
    palavrasTeste: seq<string>,
    acertos: int,
    totalTestes: int,
    ultimoAcesso: Option<int>)

  /**
   * What a user's entry holds: a complete state, or the partial dictionary
   * left by saving a user that was never loaded (`{}`, and once loaded
   * `{"ultimo_acesso": …}`), which has no `fase`.
   */
  datatype Record = Partial(stamp: Option<int>) | Full(state: State)

  /** No personal data: no name, age or level, no test words, zero counts. */
  predicate IsCleared(s: State) {
    s.nome == None && s.idade == None && s.nivelAlfabetizacao == None
    && s.palavrasTeste == [] && s.acertos == 0 && s.totalTestes == 0
  }

  /** `_get_default_state`: a fresh conversation in the first phase, accessed now. */
  function Default(now: int): (s: State)
    ensures s.fase == Inicial && IsCleared(s) && s.ultimoAcesso == Some(now)
  {
    State(Inicial, None, None, None, [], 0, 0, Some(now))
  }

  /** The guarantee of `get_user_state`: a state in the first phase has its personal data cleared. */
  function ClearIfInitial(s: State): (c: State)
    ensures s.fase == Inicial ==> IsCleared(c)
    ensures s.fase != Inicial ==> c == s
    ensures c.fase == s.fase && c.ultimoAcesso == s.ultimoAcesso
  {
    if s.fase == Inicial then
      s.(nome := None, idade := None, nivelAlfabetizacao := None,
         palavrasTeste := [], acertos := 0, totalTestes := 0)
    else s
  }

  /** Clearing twice clears no more than once. */
  lemma ClearIfInitialIdempotent(s: State)
    ensures ClearIfInitial(ClearIfInitial(s)) == ClearIfInitial(s)
  {
  }

  /** The default state is left alone by the clearing. */
  lemma DefaultIsClean(now: int)
    ensures ClearIfInitial(Default(now)) == Default(now)
  {
  }

  function StampOf(rec: Record): Option<int> {
    match rec
    case Partial(stamp) => stamp
    case Full(s) => s.ultimoAcesso
  }

  function WithStamp(rec: Record, stamp: Option<int>): (r: Record)
    ensures StampOf(r) == stamp && r.Full? == rec.Full?
    ensures r.Full? ==> r.state == rec.state.(ultimoAcesso := stamp)
  {
    match rec
    case Partial(_) => Partial(stamp)
    case Full(s) => Full(s.(ultimoAcesso := stamp))
  }

  /**
   * `_is_conversation_expired`: strictly more than 24 hours since the last
   * access; a missing or unreadable timestamp never expires.
   */
  function IsExpired(stamp: Option<int>, now: int): bool {
    stamp.Some? && now - stamp.value > Day
  }

  /** Exactly 24 hours is still fresh; one second more has expired. */
  lemma ExpiryBoundary(t: int)
    ensures !IsExpired(Some(t), t + Day)
    ensures IsExpired(Some(t), t + Day + 1)
    ensures !IsExpired(None, t)
  {
  }

  /** Once expired, a stamp stays expired as the clock advances. */
  lemma ExpiryMonotone(stamp: Option<int>, now1: int, now2: int)
    requires IsExpired(stamp, now1) && now1 <= now2
    ensures IsExpired(stamp, now2)
  {
  }

  /**
   * `_load_user_state`: no entry gives the default state; an expired
   * entry gives the default state; any other entry is returned with its
   * access time set to now.
   */
  function Load(disk: map<string, Record>, u: string, now: int): (rec: Record)
    ensures StampOf(rec) == Some(now)
    ensures u !in disk || IsExpired(StampOf(disk[u]), now) ==> rec == Full(Default(now))
    ensures u in disk && !IsExpired(StampOf(disk[u]), now) ==> rec == WithStamp(disk[u], Some(now))
  {
    if u in disk && !IsExpired(StampOf(disk[u]), now) then WithStamp(disk[u], Some(now))
    else Full(Default(now))
  }

  /** A fresh complete state loads with every field but the access time unchanged. */
  lemma LoadKeepsFreshState(disk: map<string, Record>, u: string, now: int)
    requires u in disk && disk[u].Full? && !IsExpired(disk[u].state.ultimoAcesso, now)
    ensures Load(disk, u, now).Full?
    ensures Load(disk, u, now).state == disk[u].state.(ultimoAcesso := Some(now))
  {
  }

  /** Whatever was stored, a loaded record has not expired at the time it was loaded. */
  lemma LoadedIsFresh(disk: map<string, Record>, u: string, now: int)
    ensures !IsExpired(StampOf(Load(disk, u, now)), now)
  {
  }

  /** The clearing `get_user_state` applies to the record it hands out. */
  function Cleared(rec: Record): Record {
    match rec
    case Partial(_) => rec
    case Full(s) => Full(ClearIfInitial(s))
  }

  /** The state a record yields, or `None` where reading `state["fase"]` raises `KeyError`. */
  function StateOf(rec: Record): (r: Option<State>)
    ensures r.Some? <==> rec.Full?
  {
    match rec
    case Partial(_) => None
    case Full(s) => Some(s)
  }

  /**
   * `UserStateManager`: `cache` is `self.user_states`, `disk` the state
   * directory. `get_user_state` hands out the cached dictionary itself, which
   * callers change in place before `save_user_state`; `SetCached` is that
   * write into the cache entry.
   */
  class UserStateManager {
    var cache: map<string, Record>
    var disk: map<string, Record>

    constructor (stored: map<string, Record>)
      ensures cache == map[] && disk == stored
    {
      cache := map[];
      disk := stored;
    }

    /** The record `get_user_state` caches for `u`: the cached one, else the loaded one, cleared. */
    function Current(u: string, now: int): Record
      reads this
    {
      Cleared(if u in cache then cache[u] else Load(disk, u, now))
    }

    /** `get_user_state` */
    method GetUserState(u: string, now: int) returns (r: Option<State>)
      modifies this
      ensures r == StateOf(old(Current(u, now)))
      ensures cache == old(cache)[u := old(Current(u, now))]
      ensures disk == old(disk)
    {
      if u !in cache {
        cache := cache[u := Load(disk, u, now)];
      }
      var rec := cache[u];
      match rec {
        case Partial(_) =>
          r := None;
        case Full(state) =>
          if state.fase == Inicial {
            var cleared := state.(nome := None, idade := None, nivelAlfabetizacao := None,
                                  palavrasTeste := [], acertos := 0, totalTestes := 0);
            cache := cache[u := Full(cleared)];
            r := Some(cleared);
          } else {
            r := Some(state);
          }
      }
    }

    /** A caller's in-place change to the state dictionary `get_user_state` handed out. */
    method SetCached(u: string, s: State)
      modifies this
      ensures cache == old(cache)[u := Full(s)]
      ensures disk == old(disk)
    {
      cache := cache[u := Full(s)];
    }

    /** `save_user_state`: the cached record is written, or `{}` for a user not in the cache. */
    method SaveUserState(u: string)
      modifies this
      ensures disk == old(disk)[u := if u in cache then cache[u] else Partial(None)]
      ensures cache == old(cache)
    {
      var rec := if u in cache then cache[u] else Partial(None);
      disk := disk[u := rec];
    }

    /** `clear_user_state`: the user leaves both the cache and the disk. */
    method ClearUserState(u: string)
      modifies this
      ensures cache == old(cache) - {u}
      ensures disk == old(disk) - {u}
    {
      if u in cache {
        cache := cache - {u};
      }
      if u in disk {
        disk := disk - {u};
      }
    }
  }

  /** A user with nothing cached or stored gets the default state. */
  lemma UnknownUserGetsDefault(cache: map<string, Record>, disk: map<string, Record>, u: string, now: int)
    requires u !in cache && u !in disk
    ensures Cleared(Load(disk, u, now)) == Full(Default(now))
  {
  }

  /** Whatever `get_user_state` hands out in the first phase carries no personal data. */
  lemma HandedOutInitialIsCleared(rec: Record)
    requires Cleared(rec).Full? && Cleared(rec).state.fase == Inicial
    ensures IsCleared(Cleared(rec).state)
  {
  }

  /** After `clear_user_state`, the next `get_user_state` starts over from the default state. */
  method ClearThenGet(m: UserStateManager, u: string, now: int) returns (r: Option<State>)
    modifies m
    ensures r == Some(Default(now))
    ensures u !in m.disk
  {
    m.ClearUserState(u);
    r := m.GetUserState(u, now);
  }

  /**
   * Once a user is cached, a later `get_user_state` hands out the same state
   * however much later it comes: expiry is checked only on loading.
   */
  method RepeatedGet(m: UserStateManager, u: string, now1: int, now2: int) returns (r1: Option<State>, r2: Option<State>)
    modifies m
    ensures r1 == r2
  {
    r1 := m.GetUserState(u, now1);
    r2 := m.GetUserState(u, now2);
    if m.cache[u].Full? {
      ClearIfInitialIdempotent(m.cache[u].state);
    }
  }

  /** Saving one user leaves every other user's entry as it was. */
  method SaveLeavesOthers(m: UserStateManager, u: string, v: string)
    requires u != v
    modifies m
    ensures v in old(m.disk) <==> v in m.disk
    ensures v in m.disk ==> m.disk[v] == old(m.disk[v])
  {
    m.SaveUserState(u);
  }
}
