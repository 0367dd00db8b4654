/** An autonomous seat's memory (backend/agents/memory.py): a bounded event log, speeches, players and suspicion scores. */
module Memory {
  import opened Wrappers
  import opened Dicts
  import opened PySlice

  /** `needle` occurs in `hay` starting at index `i`. */
  ghost predicate OccursAt(hay: string, needle: string, i: int) {
    0 <= i && i + |needle| <= |hay| && hay[i..i + |needle|] == needle
  }

  /** Python `needle in hay` on strings. */
  function Contains(hay: string, needle: string): (b: bool)
    ensures b <==> exists i :: OccursAt(hay, needle, i)
    decreases |hay|
  {
    if |needle| > |hay| then false
    else if hay[..|needle|] == needle then
      assert OccursAt(hay, needle, 0);
      true
    else
      var b := Contains(hay[1..], needle);
      assert b ==> exists i :: OccursAt(hay, needle, i) by {
        if b {
          var i :| OccursAt(hay[1..], needle, i);
          assert hay[i + 1..i + 1 + |needle|] == hay[1..][i..i + |needle|];
          assert OccursAt(hay, needle, i + 1);
        }
      }
      assert (exists i :: OccursAt(hay, needle, i)) ==> b by {
        forall i | OccursAt(hay, needle, i) ensures b {
          assert i != 0;
          assert hay[1..][i - 1..i - 1 + |needle|] == hay[i..i + |needle|];
          assert OccursAt(hay[1..], needle, i - 1);
        }
      }
      b
  }

  /** The events that mention `playerId`, in their original order. */
  function About(events: seq<string>, playerId: string): (r: seq<string>)
    ensures forall e :: e in r <==> e in events && Contains(e, playerId)
  {
    if events == [] then []
    else (if Contains(events[0], playerId) then [events[0]] else []) + About(events[1..], playerId)
  }

  lemma {:induction false} AboutConcat(a: seq<string>, b: seq<string>, playerId: string)
    ensures About(a + b, playerId) == About(a, playerId) + About(b, playerId)
  {
    if a == [] {
      assert a + b == b;
    } else {
      assert (a + b)[1..] == a[1..] + b;
      AboutConcat(a[1..], b, playerId);
    }
  }

  /** The log after `add_event(e, max_events)` appended `e` to `log`. */
  function KeepRecent(log: seq<string>, maxEvents: int): (r: seq<string>)
    ensures |r| <= |log| && r == log[|log| - |r|..]
    ensures maxEvents >= 1 ==> |r| == (if |log| < maxEvents then |log| else maxEvents)
    ensures maxEvents == 0 ==> r == log
  {
    if |log| > maxEvents then Suffix(log, maxEvents) else log
  }

  /** `add_event` with a positive bound keeps at most that many events, the newest last. */
  lemma AddEventKeepsNewest(log: seq<string>, e: string, maxEvents: int)
    requires maxEvents >= 1
    ensures var r := KeepRecent(log + [e], maxEvents);
      1 <= |r| <= maxEvents && r[|r| - 1] == e && r[..|r| - 1] == log[|log| + 1 - |r|..]
  {
    var s := log + [e];
    var r := KeepRecent(s, maxEvents);
    assert r == s[|s| - |r|..];
    assert r[..|r| - 1] == s[|s| - |r|..|s| - 1];
    assert s[..|s| - 1] == log;
  }

  /** A player entry `{"id", "name", "alive"}` as given to `set_players`; any key may be missing. */
  datatype PlayerEntry = PlayerEntry(id: Option<string>, name: Option<string>, alive: Option<bool>)

  /** Id to name for every player with a non-empty id: a later entry with the same id wins. */
  function NamesOf(players: seq<PlayerEntry>): (d: Dict<Option<string>>)
    ensures DistinctKeys(d)
    ensures forall id :: id in Keys(d) <==> exists i :: 0 <= i < |players| && players[i].id == Some(id) && id != ""
    ensures forall i :: 0 <= i < |players| && Truthy(players[i].id) &&
                        (forall j :: i < j < |players| ==> players[j].id != players[i].id) ==>
                        Get(d, players[i].id.value) == Some(players[i].name)
  {
    if players == [] then []
    else
      var init := players[..|players| - 1];
      var last := players[|players| - 1];
      var d := NamesOf(init);
      assert forall i :: 0 <= i < |init| ==> init[i] == players[i];
      if Truthy(last.id) then PutDistinct(d, last.id.value, last.name); Put(d, last.id.value, last.name) else d
  }

  /** The non-empty ids of the players that are alive, a missing alive flag counting as alive. */
  function AliveOf(players: seq<PlayerEntry>): set<string> {
    set p | p in players && Truthy(p.id) && p.alive != Some(false) :: p.id.value
  }

  /** Suspicion per player, 0 being neutral (`SuspicionTable`). */
  class SuspicionTable {
    var scores: Dict<real>

    ghost predicate Valid()
      reads this
    {
      DistinctKeys(scores)
    }

    constructor ()
      ensures Valid() && scores == []
    {
      scores := [];
    }

    /** `init_player`: the score is reset to 0; every other score is unchanged. */
    method InitPlayer(playerId: string)
      requires Valid()
      modifies this
      ensures Valid()
      ensures scores == Put(old(scores), playerId, 0.0)
      ensures Get(scores, playerId) == Some(0.0)
    {
      PutDistinct(scores, playerId, 0.0);
      scores := Put(scores, playerId, 0.0);
    }

    /** `add`: adds `delta` onto the current score (0 when unknown) and changes no other key. */
    method Add(playerId: string, delta: real)
      requires Valid()
      modifies this
      ensures Valid()
      ensures Get(scores, playerId) == Some(Get(old(scores), playerId).GetOr(0.0) + delta)
      ensures forall k :: k != playerId ==> Get(scores, k) == Get(old(scores), k)
    {
      PutDistinct(scores, playerId, GetOr(scores, playerId, 0.0) + delta);
      scores := Put(scores, playerId, GetOr(scores, playerId, 0.0) + delta);
    }

    /** `get`: the score, 0 for an unknown player. */
    function Score(playerId: string): (r: real)
      reads this
      ensures playerId !in Keys(scores) ==> r == 0.0
      ensures playerId in Keys(scores) ==> Get(scores, playerId) == Some(r)
    {
      GetOr(scores, playerId, 0.0)
    }

    /**
     * `top_suspects(k)`: the first k entries of the scores sorted by
     * descending score (a negative k drops the last -k, as a Python slice
     * does). No entry left out scores higher than one taken, and entries with
     * equal scores keep their order.
     */
    function TopSuspects(k: int): (r: Dict<real>)
      reads this
      ensures k >= 0 ==> |r| == (if k < |scores| then k else |scores|)
      ensures k < 0 ==> |r| == (if -k < |scores| then |scores| + k else 0)
      ensures forall i, j :: 0 <= i < j < |r| ==> r[i].1 >= r[j].1
      ensures multiset(r) <= multiset(scores)
      ensures forall e, x :: e in multiset(scores) - multiset(r) && x in r ==> e.1 <= x.1
      ensures forall c :: WithScore(r, c) <= WithScore(scores, c)
    {
      SortDescSorted(scores);
      SortDescPermutes(scores);
      var sorted := SortDesc(scores);
      var r := Prefix(sorted, k);
      PrefixLeftOut(sorted, |r|);
      forall c ensures WithScore(r, c) <= WithScore(scores, c) {
        WithScorePrefix(sorted, |r|, c);
        SortDescStable(scores, c);
      }
      r
    }
  }

  /** Places `x` before the first entry whose score is not above its own. */
  function Insert(x: (string, real), t: Dict<real>): Dict<real> {
    if t == [] || t[0].1 <= x.1 then [x] + t else [t[0]] + Insert(x, t[1..])
  }

  /** Python's stable `sorted(items, key=score, reverse=True)`, as an insertion sort. */
  function SortDesc(s: Dict<real>): Dict<real> {
    if s == [] then [] else Insert(s[0], SortDesc(s[1..]))
  }

  ghost predicate Descending(s: Dict<real>) {
    forall i, j :: 0 <= i < j < |s| ==> s[i].1 >= s[j].1
  }

  /** The entries with score exactly `c`, in order. */
  function WithScore(s: Dict<real>, c: real): Dict<real> {
    if s == [] then [] else (if s[0].1 == c then [s[0]] else []) + WithScore(s[1..], c)
  }

  lemma {:induction false} InsertPermutes(x: (string, real), t: Dict<real>)
    ensures multiset(Insert(x, t)) == multiset([x] + t)
  {
    if !(t == [] || t[0].1 <= x.1) {
      InsertPermutes(x, t[1..]);
      assert t == [t[0]] + t[1..];
    }
  }

  lemma {:induction false} SortDescPermutes(s: Dict<real>)
    ensures multiset(SortDesc(s)) == multiset(s)
  {
    if s != [] {
      SortDescPermutes(s[1..]);
      InsertPermutes(s[0], SortDesc(s[1..]));
      assert s == [s[0]] + s[1..];
    }
  }

  /** Inserting an entry scored at most `b` among entries scored at most `b` keeps every score at most `b`. */
  lemma {:induction false} InsertBounded(x: (string, real), t: Dict<real>, b: real)
    requires x.1 <= b && forall e :: e in t ==> e.1 <= b
    ensures forall e :: e in Insert(x, t) ==> e.1 <= b
  {
    if !(t == [] || t[0].1 <= x.1) {
      InsertBounded(x, t[1..], b);
      assert Insert(x, t) == [t[0]] + Insert(x, t[1..]);
    }
  }

  lemma {:induction false} InsertSorted(x: (string, real), t: Dict<real>)
    requires Descending(t)
    ensures Descending(Insert(x, t))
  {
    if !(t == [] || t[0].1 <= x.1) {
      InsertSorted(x, t[1..]);
      InsertBounded(x, t[1..], t[0].1);
      var r := Insert(x, t[1..]);
      assert Insert(x, t) == [t[0]] + r;
      forall i, j | 0 <= i < j < |r| + 1 ensures ([t[0]] + r)[i].1 >= ([t[0]] + r)[j].1 {
        if i == 0 {
          assert ([t[0]] + r)[j] == r[j - 1] && r[j - 1] in r;
        }
      }
    }
  }

  /** The sort puts higher scores first. */
  lemma {:induction false} SortDescSorted(s: Dict<real>)
    ensures Descending(SortDesc(s))
  {
    if s != [] {
      SortDescSorted(s[1..]);
      InsertSorted(s[0], SortDesc(s[1..]));
    }
  }

  lemma WithScoreCons(a: (string, real), t: Dict<real>, c: real)
    ensures WithScore([a] + t, c) == (if a.1 == c then [a] else []) + WithScore(t, c)
  {
    assert ([a] + t)[1..] == t;
  }

  lemma {:induction false} InsertStable(x: (string, real), t: Dict<real>, c: real)
    ensures WithScore(Insert(x, t), c) == (if x.1 == c then [x] else []) + WithScore(t, c)
  {
    if t == [] || t[0].1 <= x.1 {
      WithScoreCons(x, t, c);
    } else {
      InsertStable(x, t[1..], c);
      WithScoreCons(t[0], Insert(x, t[1..]), c);
      WithScoreCons(t[0], t[1..], c);
      assert t == [t[0]] + t[1..];
      if x.1 == c {
        assert t[0].1 != c;
      }
    }
  }

  /** The sort is stable: entries with equal scores keep their insertion order. */
  lemma {:induction false} SortDescStable(s: Dict<real>, c: real)
    ensures WithScore(SortDesc(s), c) == WithScore(s, c)
  {
    if s != [] {
      SortDescStable(s[1..], c);
      InsertStable(s[0], SortDesc(s[1..]), c);
    }
  }

  /** In a descending list, nothing after the first n entries scores higher than any of them. */
  lemma PrefixLeftOut(s: Dict<real>, n: nat)
    requires Descending(s) && n <= |s|
    ensures multiset(s[..n]) <= multiset(s)
    ensures forall e, x :: e in multiset(s) - multiset(s[..n]) && x in s[..n] ==> e.1 <= x.1
  {
    assert s == s[..n] + s[n..];
    forall e, x | e in multiset(s) - multiset(s[..n]) && x in s[..n] ensures e.1 <= x.1 {
      assert e in multiset(s[n..]);
      var j :| n <= j < |s| && s[j] == e;
      var i :| 0 <= i < n && s[i] == x;
    }
  }

  /** The equal-score entries of a prefix are a prefix of the equal-score entries of the whole. */
  lemma {:induction false} WithScorePrefix(s: Dict<real>, n: nat, c: real)
    requires n <= |s|
    ensures WithScore(s[..n], c) <= WithScore(s, c)
  {
    if n > 0 {
      WithScorePrefix(s[1..], n - 1, c);
      WithScoreCons(s[0], s[1..], c);
      WithScoreCons(s[0], s[..n][1..], c);
      assert s == [s[0]] + s[1..] && s[..n] == [s[0]] + s[..n][1..];
      assert s[..n][1..] == s[1..][..n - 1];
    }
  }

  class AgentMemory {
    var events: seq<string>
    var speeches: seq<string>
    var playerNames: Dict<Option<string>>
    const suspicion: SuspicionTable
    var confirmedRoles: Dict<string>
    var alivePlayers: set<string>

    constructor ()
      ensures events == [] && speeches == [] && playerNames == [] && confirmedRoles == []
      ensures alivePlayers == {}
      ensures fresh(suspicion) && suspicion.Valid() && suspicion.scores == []
    {
      events := [];
      speeches := [];
      playerNames := [];
      suspicion := new SuspicionTable();
      confirmedRoles := [];
      alivePlayers := {};
    }

    /** `add_event`: appends, then keeps only the newest `maxEvents` when over the bound. */
    method AddEvent(event: string, maxEvents: int)
      modifies this`events
      ensures events == KeepRecent(old(events) + [event], maxEvents)
    {
      events := events + [event];
      if |events| > maxEvents {
        events := Suffix(events, maxEvents);
      }
    }

    /** `visible_events(k)`: the last k events, in Python's negative-slice sense. */
    function VisibleEvents(k: int): (r: seq<string>)
      reads this
      ensures k >= 1 ==> r == events[|events| - (if k < |events| then k else |events|)..]
      ensures k == 0 ==> r == events
    {
      Suffix(events, k)
    }

    /** `add_speech`: appends exactly one line "<player_id>: <text>". */
    method AddSpeech(playerId: string, text: string)
      modifies this`speeches
      ensures speeches == old(speeches) + [playerId + ": " + text]
    {
      speeches := speeches + [playerId + ": " + text];
    }

    /** `set_players`: names and living ids of the entries that carry an id. */
    method SetPlayers(players: seq<PlayerEntry>)
      modifies this`playerNames, this`alivePlayers
      ensures playerNames == NamesOf(players) && alivePlayers == AliveOf(players)
      ensures forall id :: id in alivePlayers <==>
        exists i :: 0 <= i < |players| && players[i].id == Some(id) && id != "" && players[i].alive != Some(false)
    {
      playerNames := NamesOf(players);
      alivePlayers := AliveOf(players);
      forall id | id in alivePlayers
        ensures exists i :: 0 <= i < |players| && players[i].id == Some(id) && id != "" && players[i].alive != Some(false)
      {
        var p :| p in players && Truthy(p.id) && p.alive != Some(false) && p.id.value == id;
        var i :| 0 <= i < |players| && players[i] == p;
      }
    }

    /** `find_events_about(player_id, k)`: the first k events that mention the player, in order. */
    function FindEventsAbout(playerId: string, k: int): (r: seq<string>)
      reads this
      ensures k >= 0 ==> |r| == (if k < |About(events, playerId)| then k else |About(events, playerId)|)
      ensures k < 0 ==> |r| == (if -k < |About(events, playerId)| then |About(events, playerId)| + k else 0)
      ensures forall e :: e in r ==> e in events && Contains(e, playerId)
      ensures |r| <= |About(events, playerId)|
      ensures r == About(events, playerId)[..|r|]
    {
      Prefix(About(events, playerId), k)
    }
  }
}
