/**
 * The per-user message log of `services/conversation_history.py`: an
 * in-memory cache of message lists, each written through to its own JSON
 * file on every addition.
 *
 * The history directory is a map from user id to message list, and the
 * timestamp of a message is an integer clock reading passed to `AddMessage`.
 */
module ConversationHistory {
  import opened Wrappers
  import opened Text

  datatype Role = User | Assistant

  datatype Message = Message(role: Role, content: string, timestamp: int)

  /** `"user" if is_user else "assistant"` */
  function RoleOf(isUser: bool): (r: Role)
    ensures r == User <==> isUser
  {
    if isUser then User else Assistant
  }

  /** `_load_user_history`: the stored list, or an empty one when the user has no file. */
  function LoadHistory(disk: map<string, seq<Message>>, u: string): (h: seq<Message>)
    ensures u !in disk ==> h == []
    ensures u in disk ==> h == disk[u]
  {
    if u in disk then disk[u] else []
  }

  /**
   * Python's `xs[start:]`: a negative start counts from the end and is
   * clamped to the front, a start past the end gives the empty list.
   */
  function SliceFrom<T>(xs: seq<T>, start: int): (r: seq<T>)
    ensures start >= 0 ==> r == xs[Min(start, |xs|)..]
    ensures start < 0 ==> |r| == Min(-start, |xs|) && r == xs[|xs| - |r|..]
  {
    var k := if start < 0 then (if start + |xs| < 0 then 0 else start + |xs|) else Min(start, |xs|);
    xs[k..]
  }

  /**
   * `history[-limit:] if limit else history`: a positive limit keeps the last
   * `limit` messages, a missing or zero limit keeps everything, and a negative
   * limit drops that many messages from the front.
   */
  function Limited<T>(xs: seq<T>, limit: Option<int>): (r: seq<T>)
    ensures limit == None || limit == Some(0) ==> r == xs
    ensures limit.Some? && limit.value > 0 ==> |r| == Min(limit.value, |xs|) && xs == xs[..|xs| - |r|] + r
    ensures limit.Some? && limit.value < 0 ==> r == xs[Min(-limit.value, |xs|)..]
  {
    if limit.Some? && limit.value != 0 then SliceFrom(xs, -limit.value) else xs
  }

  /** A limit at least as long as the history returns all of it. */
  lemma LargeLimitIsWhole<T>(xs: seq<T>, n: int)
    requires n >= |xs|
    ensures Limited(xs, Some(n)) == xs
  {
    if n > 0 {
      var r := Limited(xs, Some(n));
      assert |r| == |xs|;
      assert xs[..0] == [];
    }
  }

  /** One more message at the end is the last message of every positive limit. */
  lemma LimitedEndsWithLast<T>(xs: seq<T>, x: T, n: int)
    requires n > 0
    ensures var r := Limited(xs + [x], Some(n)); |r| > 0 && r[|r| - 1] == x
  {
  }

  /**
   * `ConversationHistoryManager`: `cache` is `self.user_histories`, `disk`
   * the history directory. While the cache agrees with the disk (`Valid`), a
   * user's messages are `LoadHistory(disk, u)`.
   */
  class ConversationHistoryManager {
    var cache: map<string, seq<Message>>
    var disk: map<string, seq<Message>>

    /** Every cached list is what the user's file holds (or empty when there is none). */
    predicate Valid()
      reads this
    {
      forall u :: u in cache ==> cache[u] == LoadHistory(disk, u)
    }

    constructor (stored: map<string, seq<Message>>)
      ensures Valid()
      ensures cache == map[] && disk == stored
    {
      cache := map[];
      disk := stored;
    }

    /** `add_message`: one message appended at the end and written through. */
    method AddMessage(u: string, message: string, isUser: bool, now: int)
      requires Valid()
      modifies this
      ensures Valid()
      ensures disk == old(disk)[u := LoadHistory(old(disk), u) + [Message(RoleOf(isUser), message, now)]]
      ensures cache == old(cache)[u := disk[u]]
    {
      if u !in cache {
        cache := cache[u := LoadHistory(disk, u)];
      }
      var role := if isUser then User else Assistant;
      cache := cache[u := cache[u] + [Message(role, message, now)]];
      SaveUserHistory(u);
    }

    /** `_save_user_history`: the cached list, or an empty one, becomes the file. */
    method SaveUserHistory(u: string)
      modifies this
      ensures disk == old(disk)[u := if u in cache then cache[u] else []]
      ensures cache == old(cache)
    {
      var h := if u in cache then cache[u] else [];
      disk := disk[u := h];
    }

    /** `get_history`: the user's messages, cut to the last `limit` when a limit is given. */
    method GetHistory(u: string, limit: Option<int>) returns (h: seq<Message>)
      requires Valid()
      modifies this
      ensures Valid()
      ensures h == Limited(LoadHistory(disk, u), limit)
      ensures cache == old(cache)[u := LoadHistory(disk, u)]
      ensures disk == old(disk)
    {
      if u !in cache {
        cache := cache[u := LoadHistory(disk, u)];
      }
      var history := cache[u];
      if limit.Some? && limit.value != 0 {
        h := SliceFrom(history, -limit.value);
      } else {
        h := history;
      }
    }

    /** `clear_history`: the user leaves both the cache and the disk. */
    method ClearHistory(u: string)
      requires Valid()
      modifies this
      ensures Valid()
      ensures cache == old(cache) - {u}
      ensures disk == old(disk) - {u}
      ensures LoadHistory(disk, u) == []
    {
      if u in cache {
        cache := cache - {u};
      }
      if u in disk {
        disk := disk - {u};
      }
    }
  }

  /** After `clear_history`, `get_history` is empty whatever the limit. */
  method ClearThenGet(m: ConversationHistoryManager, u: string, limit: Option<int>) returns (h: seq<Message>)
    requires m.Valid()
    modifies m
    ensures h == []
  {
    m.ClearHistory(u);
    h := m.GetHistory(u, limit);
  }

  /** Adding to one user's history leaves every other user's history as it was. */
  method AddLeavesOthers(m: ConversationHistoryManager, u: string, v: string, message: string, isUser: bool, now: int)
    requires m.Valid() && u != v
    modifies m
    ensures LoadHistory(m.disk, v) == LoadHistory(old(m.disk), v)
  {
    m.AddMessage(u, message, isUser, now);
  }

  /** Messages added one after another are read back in that order, earlier ones unchanged. */
  method AddTwoKeepsOrder(m: ConversationHistoryManager, u: string, first: string, second: string, now: int)
      returns (h: seq<Message>)
    requires m.Valid()
    modifies m
    ensures h == LoadHistory(old(m.disk), u) + [Message(User, first, now), Message(Assistant, second, now)]
  {
    m.AddMessage(u, first, true, now);
    m.AddMessage(u, second, false, now);
    h := m.GetHistory(u, None);
  }
}
