/** Chat sessions and the table that holds them. The agent behind a session
    is left abstract: what it answers to a message is a function passed in.
    Clock readings are whole seconds on one clock, passed in as `now`. */
module Sessions {
  import opened Wrappers

  /** `LiveXChatSession`: when it was first and last used. */
  class ChatSession {
    const sessionId: string
    var createdAt: Option<int>
    var lastActive: Option<int>

    constructor(sessionId: string)
      ensures this.sessionId == sessionId && createdAt.None? && lastActive.None?
    {
      this.sessionId := sessionId;
      createdAt := None;
      lastActive := None;
    }

    /** The two time stamps are set together, and the session was created no
        later than it was last used. */
    predicate Stamped()
      reads this
    {
      (createdAt.None? <==> lastActive.None?)
      && (createdAt.Some? ==> createdAt.value <= lastActive.value)
    }

    /** `send_message`: the creation time is set by the first message only,
        the last-use time by every message. */
    method SendMessage(message: string, now: int, chat: string -> string) returns (reply: string)
      modifies this
      ensures createdAt == (if old(createdAt).None? then Some(now) else old(createdAt))
      ensures lastActive == Some(now)
      ensures reply == chat(message)
      // on a clock that does not run backwards, the stamps stay in order
      ensures old(Stamped()) && (old(lastActive).None? || old(lastActive).value <= now) ==> Stamped()
    {
      if createdAt.None? {
        createdAt := Some(now);
      }
      lastActive := Some(now);
      reply := chat(message);
    }
  }

  // ------------------------------------------------------------ id sequences

  /** No id occurs twice. */
  predicate Distinct(ids: seq<string>)
  {
    forall i, j :: 0 <= i < j < |ids| ==> ids[i] != ids[j]
  }

  /** The ids not in `gone`, in their order. */
  function Keep(ids: seq<string>, gone: set<string>): (r: seq<string>)
  {
    if ids == [] then []
    else Keep(ids[..|ids| - 1], gone) + (if ids[|ids| - 1] in gone then [] else [ids[|ids| - 1]])
  }

  /** `Keep` holds exactly the ids not in `gone`, keeps them distinct, and
      drops one id for each distinct id of `gone` it held. */
  lemma {:induction false} KeepSpec(ids: seq<string>, gone: set<string>)
    ensures forall k :: k in Keep(ids, gone) <==> k in ids && k !in gone
    ensures Distinct(ids) ==> Distinct(Keep(ids, gone))
    ensures |Keep(ids, gone)| <= |ids|
    decreases |ids|
  {
    if ids != [] {
      var init := ids[..|ids| - 1];
      var last := ids[|ids| - 1];
      KeepSpec(init, gone);
      assert ids == init + [last];
      if Distinct(ids) {
        assert Distinct(init);
        assert last !in init;
      }
    }
  }

  /** Dropping one more id after some are gone is dropping them all at once. */
  lemma {:induction false} KeepTwice(ids: seq<string>, gone: set<string>, k: string)
    ensures Keep(Keep(ids, gone), {k}) == Keep(ids, gone + {k})
    decreases |ids|
  {
    if ids != [] {
      var init := ids[..|ids| - 1];
      KeepTwice(init, gone, k);
      var kept := Keep(ids, gone);
      var last := ids[|ids| - 1];
      if last !in gone {
        assert kept[..|kept| - 1] == Keep(init, gone);
      } else {
        assert kept == Keep(init, gone);
      }
    }
  }

  /** Deleting a present id from distinct ids shortens them by one. */
  lemma {:induction false} KeepOne(ids: seq<string>, k: string)
    requires Distinct(ids)
    ensures |Keep(ids, {k})| == |ids| - (if k in ids then 1 else 0)
    decreases |ids|
  {
    if ids != [] {
      var init := ids[..|ids| - 1];
      assert Distinct(init);
      KeepOne(init, k);
      assert ids == init + [ids[|ids| - 1]];
    }
  }

  // ---------------------------------------------------------------- cleanup

  /** `session.last_active and session.last_active < cutoff` */
  predicate Stale(s: ChatSession, cutoff: int)
    reads s
  {
    s.lastActive.Some? && s.lastActive.value < cutoff
  }

  /** The ids whose sessions are stale, in table order. */
  function StaleIds(ids: seq<string>, sessions: map<string, ChatSession>, cutoff: int): (r: seq<string>)
    requires forall i :: 0 <= i < |ids| ==> ids[i] in sessions
    reads sessions.Values
  {
    if ids == [] then []
    else
      var last := ids[|ids| - 1];
      StaleIds(ids[..|ids| - 1], sessions, cutoff) + (if Stale(sessions[last], cutoff) then [last] else [])
  }

  /** The ids whose sessions are not stale, in table order. */
  function ActiveIds(ids: seq<string>, sessions: map<string, ChatSession>, cutoff: int): (r: seq<string>)
    requires forall i :: 0 <= i < |ids| ==> ids[i] in sessions
    reads sessions.Values
  {
    if ids == [] then []
    else
      var last := ids[|ids| - 1];
      ActiveIds(ids[..|ids| - 1], sessions, cutoff) + (if Stale(sessions[last], cutoff) then [] else [last])
  }

  /** An id is listed as stale exactly when it is in the table and its session
      is stale; the stale and the active ids together are all of them. */
  lemma {:induction false} StaleIdsSpec(ids: seq<string>, sessions: map<string, ChatSession>, cutoff: int)
    requires forall i :: 0 <= i < |ids| ==> ids[i] in sessions
    ensures forall k :: k in StaleIds(ids, sessions, cutoff) <==> k in ids && Stale(sessions[k], cutoff)
    ensures |StaleIds(ids, sessions, cutoff)| + |ActiveIds(ids, sessions, cutoff)| == |ids|
    decreases |ids|
  {
    if ids != [] {
      var init := ids[..|ids| - 1];
      StaleIdsSpec(init, sessions, cutoff);
      assert ids == init + [ids[|ids| - 1]];
    }
  }

  /** Removing the stale ids leaves the active ones. */
  lemma {:induction false} KeepActive(ids: seq<string>, sessions: map<string, ChatSession>, cutoff: int,
                                      gone: set<string>)
    requires forall i :: 0 <= i < |ids| ==> ids[i] in sessions
    requires forall i :: 0 <= i < |ids| ==> (ids[i] in gone <==> Stale(sessions[ids[i]], cutoff))
    ensures Keep(ids, gone) == ActiveIds(ids, sessions, cutoff)
    decreases |ids|
  {
    if ids != [] {
      KeepActive(ids[..|ids| - 1], sessions, cutoff, gone);
    }
  }

  /** `now - timedelta(hours=maxInactiveHours)`, in seconds. */
  function Cutoff(now: int, maxInactiveHours: int): int
  {
    now - maxInactiveHours * 3600
  }

  /** `SessionManager`: the sessions by id, with the ids in the order they
      were first asked for, as the dictionary keeps them. */
  class SessionManager {
    var sessions: map<string, ChatSession>
    var ids: seq<string>

    /** The ids are the table's keys, each once. */
    ghost predicate Valid()
      reads this
    {
      Distinct(ids) && (forall k :: k in sessions <==> k in ids)
    }

    constructor()
      ensures Valid() && sessions == map[] && ids == []
    {
      sessions := map[];
      ids := [];
    }

    /** `get_session`: the stored session, or a new one stored under `id`. */
    method GetSession(id: string) returns (s: ChatSession)
      requires Valid()
      modifies this
      ensures Valid()
      ensures old(id in sessions) ==> sessions == old(sessions) && ids == old(ids) && s == sessions[id]
      ensures old(id !in sessions) ==>
        fresh(s) && s.sessionId == id && s.createdAt.None? && s.lastActive.None?
        && sessions == old(sessions)[id := s] && ids == old(ids) + [id]
    {
      if id !in sessions {
        var created := new ChatSession(id);
        sessions := sessions[id := created];
        ids := ids + [id];
      }
      s := sessions[id];
    }

    /** `delete_session`: true exactly when `id` was present; only that entry goes. */
    method DeleteSession(id: string) returns (deleted: bool)
      requires Valid()
      modifies this
      ensures Valid()
      ensures deleted == old(id in sessions)
      ensures sessions == old(sessions) - {id}
      ensures ids == Keep(old(ids), {id})
      ensures |ids| == |old(ids)| - (if deleted then 1 else 0)
    {
      KeepSpec(ids, {id});
      KeepOne(ids, id);
      deleted := id in sessions;
      if deleted {
        sessions := sessions - {id};
        ids := Keep(ids, {id});
      } else {
        KeepNothing(ids, {id});
      }
    }

    /** `list_sessions`: the ids of the stored sessions, in table order. */
    method ListSessions() returns (list: seq<string>)
      requires Valid()
      ensures list == ids
      ensures Distinct(list) && forall k :: k in list <==> k in sessions
    {
      list := ids;
    }

    /** `cleanup_inactive_sessions`: every session last used before
        `now - maxInactiveHours` hours goes; sessions never used stay. */
    method CleanupInactive(now: int, maxInactiveHours: int) returns (removed: nat)
      requires Valid()
      modifies this
      ensures Valid()
      ensures forall k :: k in sessions <==> old(k in sessions && !Stale(sessions[k], Cutoff(now, maxInactiveHours)))
      ensures forall k :: k in sessions ==> sessions[k] == old(sessions)[k]
      ensures ids == old(ActiveIds(ids, sessions, Cutoff(now, maxInactiveHours)))
      ensures removed == |old(ids)| - |ids|
    {
      var cutoff := Cutoff(now, maxInactiveHours);
      ghost var active := ActiveIds(ids, sessions, cutoff);
      assert active == old(ActiveIds(ids, sessions, cutoff));
      var inactive := StaleSessionIds(cutoff);
      ghost var kept := Keep(ids, ToSet(inactive));
      CleanupPlan(ids, sessions, cutoff, inactive);
      assert kept == active;
      RemoveAll(inactive);
      assert ids == active;
      removed := |inactive|;
    }

    /** The comprehension that collects the stale ids, in table order. */
    method StaleSessionIds(cutoff: int) returns (inactive: seq<string>)
      requires Valid()
      ensures inactive == StaleIds(ids, sessions, cutoff)
    {
      inactive := [];
      var i := 0;
      while i < |ids|
        invariant 0 <= i <= |ids|
        invariant inactive == StaleIds(ids[..i], sessions, cutoff)
      {
        assert ids[..i + 1][..i] == ids[..i];
        var s := sessions[ids[i]];
        if s.lastActive.Some? && s.lastActive.value < cutoff {
          inactive := inactive + [ids[i]];
        }
        i := i + 1;
      }
      assert ids[..i] == ids;
    }

    /** The loop that deletes each of `inactive` from the table. */
    method RemoveAll(inactive: seq<string>)
      requires Valid()
      modifies this
      ensures Valid()
      ensures forall k :: k in sessions <==> k in old(sessions) && k !in inactive
      ensures forall k :: k in sessions ==> sessions[k] == old(sessions)[k]
      ensures ids == Keep(old(ids), ToSet(inactive))
    {
      var table, order := sessions, ids;
      ghost var sessions0, ids0 := sessions, ids;
      KeepNothing(order, {});
      var j := 0;
      while j < |inactive|
        invariant 0 <= j <= |inactive|
        invariant forall k :: k in table <==> k in sessions0 && k !in inactive[..j]
        invariant forall k :: k in table ==> table[k] == sessions0[k]
        invariant order == Keep(ids0, ToSet(inactive[..j]))
        invariant Distinct(order) && forall k :: k in table <==> k in order
      {
        assert inactive[..j + 1] == inactive[..j] + [inactive[j]];
        DeleteStep(order, table, inactive[j]);
        KeepTwice(ids0, ToSet(inactive[..j]), inactive[j]);
        table := table - {inactive[j]};
        order := Keep(order, {inactive[j]});
        j := j + 1;
      }
      assert inactive[..j] == inactive;
      sessions, ids := table, order;
    }
  }

  /** What deleting the stale ids leaves: the active ids, and as many fewer
      as there were stale ones. */
  lemma CleanupPlan(ids: seq<string>, sessions: map<string, ChatSession>, cutoff: int, inactive: seq<string>)
    requires forall k :: k in sessions <==> k in ids
    requires inactive == StaleIds(ids, sessions, cutoff)
    ensures forall k :: k in inactive <==> k in sessions && Stale(sessions[k], cutoff)
    ensures Keep(ids, ToSet(inactive)) == ActiveIds(ids, sessions, cutoff)
    ensures |inactive| == |ids| - |ActiveIds(ids, sessions, cutoff)|
  {
    StaleIdsSpec(ids, sessions, cutoff);
    KeepActive(ids, sessions, cutoff, ToSet(inactive));
  }

  /** Deleting one key keeps the ids the table's keys, each once. */
  lemma DeleteStep(ids: seq<string>, table: map<string, ChatSession>, k: string)
    requires Distinct(ids) && forall x :: x in table <==> x in ids
    ensures Distinct(Keep(ids, {k})) && forall x :: x in table - {k} <==> x in Keep(ids, {k})
  {
    KeepSpec(ids, {k});
  }

  /** `set(s)` */
  function ToSet(s: seq<string>): (r: set<string>)
    ensures forall k :: k in r <==> k in s
  {
    if s == [] then {} else ToSet(s[..|s| - 1]) + {s[|s| - 1]}
  }

  /** Deleting absent ids changes nothing. */
  lemma {:induction false} KeepNothing(ids: seq<string>, gone: set<string>)
    requires forall k :: k in gone ==> k !in ids
    ensures Keep(ids, gone) == ids
    decreases |ids|
  {
    if ids != [] {
      var init := ids[..|ids| - 1];
      KeepNothing(init, gone);
      assert ids == init + [ids[|ids| - 1]];
    }
  }
}
