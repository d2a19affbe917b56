/**
 * The history screen: the list of past sessions loaded from storage newest
 * first, deletion by id, and the selected session.
 */
module History {
  import opened Common
  import opened Transcript

  /** A saved practice session. `date` is the instant its date string denotes, in milliseconds. */
  datatype PastSession = PastSession(
    id: string,
    date: int,
    language: string,
    proficiency: string,
    mode: string,
    summary: Option<string>,
    messages: seq<ChatMessage>)

  /** The list without every session whose id is `id`, in the original order. */
  function Without(sessions: seq<PastSession>, id: string): (r: seq<PastSession>)
    ensures |r| <= |sessions|
    ensures forall s :: s in r <==> s in sessions && s.id != id
    decreases |sessions|
  {
    if sessions == [] then []
    else (if sessions[0].id == id then [] else [sessions[0]]) + Without(sessions[1..], id)
  }

  /** Deleting an id no session carries leaves the list as it is. */
  lemma {:induction false} WithoutAbsent(sessions: seq<PastSession>, id: string)
    requires forall s :: s in sessions ==> s.id != id
    ensures Without(sessions, id) == sessions
    decreases |sessions|
  {
    if sessions != [] {
      WithoutAbsent(sessions[1..], id);
      assert sessions == [sessions[0]] + sessions[1..];
    }
  }

  /** Deleting the same id twice is deleting it once. */
  lemma WithoutIdempotent(sessions: seq<PastSession>, id: string)
    ensures Without(Without(sessions, id), id) == Without(sessions, id)
  {
    WithoutAbsent(Without(sessions, id), id);
  }

  /** Deletion works piecewise on a split list, so the kept sessions stay in their relative order. */
  lemma {:induction false} WithoutAppend(a: seq<PastSession>, b: seq<PastSession>, id: string)
    ensures Without(a + b, id) == Without(a, id) + Without(b, id)
    decreases |a|
  {
    if a != [] {
      assert (a + b)[1..] == a[1..] + b;
      WithoutAppend(a[1..], b, id);
    } else {
      assert a + b == b;
    }
  }

  /** Ordered by date, newest first. */
  ghost predicate NewestFirst(s: seq<PastSession>) {
    forall i, j :: 0 <= i < j < |s| ==> s[i].date >= s[j].date
  }

  /** A session at least as new as the head of a newest-first list may go in front of it. */
  lemma ConsNewestFirst(y: PastSession, rest: seq<PastSession>)
    ensures NewestFirst(rest) && (rest == [] || y.date >= rest[0].date) ==> NewestFirst([y] + rest)
  {
  }

  /** Dropping the newest session leaves a newest-first list. */
  lemma TailNewestFirst(sorted: seq<PastSession>)
    requires sorted != []
    ensures NewestFirst(sorted) ==> NewestFirst(sorted[1..])
  {
    if NewestFirst(sorted) {
      forall i, j | 0 <= i < j < |sorted| - 1 ensures sorted[1..][i].date >= sorted[1..][j].date {
        assert sorted[1..][i] == sorted[i + 1] && sorted[1..][j] == sorted[j + 1];
      }
    }
  }

  /** Place `x` into a newest-first list, ahead of every session not newer than it. */
  function Insert(x: PastSession, sorted: seq<PastSession>): (r: seq<PastSession>)
    ensures NewestFirst(sorted) ==> NewestFirst(r)
    ensures multiset(r) == multiset(sorted) + multiset{x}
    ensures |r| == |sorted| + 1
    ensures r[0] == if sorted != [] && x.date < sorted[0].date then sorted[0] else x
    decreases |sorted|
  {
    if sorted == [] then [x]
    else if sorted[0].date <= x.date then
      ConsNewestFirst(x, sorted);
      [x] + sorted
    else
      var rest := Insert(x, sorted[1..]);
      assert sorted == [sorted[0]] + sorted[1..];
      TailNewestFirst(sorted);
      ConsNewestFirst(sorted[0], rest);
      [sorted[0]] + rest
  }

  /** The comparator `b.date - a.date`: the list sorted newest first, a permutation of the input. */
  function SortNewestFirst(s: seq<PastSession>): (r: seq<PastSession>)
    ensures NewestFirst(r)
    ensures multiset(r) == multiset(s)
    ensures |r| == |s|
    decreases |s|
  {
    if s == [] then []
    else
      assert s == [s[0]] + s[1..];
      Insert(s[0], SortNewestFirst(s[1..]))
  }

  /** The sessions dated `date`, in list order. */
  function DatedAt(s: seq<PastSession>, date: int): (r: seq<PastSession>)
    decreases |s|
  {
    if s == [] then [] else (if s[0].date == date then [s[0]] else []) + DatedAt(s[1..], date)
  }

  /** Putting a session in front of a list puts it in front of the sessions of its date. */
  lemma DatedAtCons(y: PastSession, rest: seq<PastSession>, date: int)
    ensures DatedAt([y] + rest, date) == (if y.date == date then [y] else []) + DatedAt(rest, date)
  {
    assert ([y] + rest)[1..] == rest;
  }

  /** The step of InsertStable past a strictly newer head. */
  lemma InsertStableStep(x: PastSession, s0: PastSession, rest: seq<PastSession>, tail: seq<PastSession>, date: int)
    requires x.date < s0.date
    requires DatedAt(rest, date) == (if x.date == date then [x] else []) + DatedAt(tail, date)
    ensures DatedAt([s0] + rest, date) == (if x.date == date then [x] else []) + DatedAt([s0] + tail, date)
  {
    DatedAtCons(s0, rest, date);
    DatedAtCons(s0, tail, date);
  }

  /** `x` goes in front of every session of its own date already in the list. */
  lemma {:induction false} InsertStable(x: PastSession, sorted: seq<PastSession>, date: int)
    ensures DatedAt(Insert(x, sorted), date)
         == (if x.date == date then [x] else []) + DatedAt(sorted, date)
    decreases |sorted|
  {
    if sorted == [] {
      DatedAtCons(x, [], date);
    } else if x.date < sorted[0].date {
      InsertStable(x, sorted[1..], date);
      InsertStableStep(x, sorted[0], Insert(x, sorted[1..]), sorted[1..], date);
      assert sorted == [sorted[0]] + sorted[1..];
    } else {
      DatedAtCons(x, sorted, date);
    }
  }

  /**
   * The sort is stable: for every date, the sessions of that date appear in the
   * same relative order as in the input.
   */
  lemma {:induction false} SortStable(s: seq<PastSession>, date: int)
    ensures DatedAt(SortNewestFirst(s), date) == DatedAt(s, date)
    decreases |s|
  {
    if s != [] {
      SortStable(s[1..], date);
      InsertStable(s[0], SortNewestFirst(s[1..]), date);
    }
  }

  /** What the storage key holds when it is set: text that does not parse as a list, or a list of sessions. */
  datatype Stored = Malformed | Entries(sessions: seq<PastSession>)

  /** The history component's state, and the stored copy of the list under its storage key. */
  class HistoryView {
    var sessions: seq<PastSession>
    var selectedSession: Option<PastSession>
    var storage: Option<Stored>

    /** The component mounts with an empty list and no selection. */
    constructor (saved: Option<Stored>)
      ensures sessions == [] && selectedSession == None && storage == saved
    {
      sessions := [];
      selectedSession := None;
      storage := saved;
    }

    /**
     * The mount effect: a stored list is shown sorted newest first, sessions of
     * equal date in their stored order; a missing or malformed entry leaves the list as it is.
     */
    method Load()
      modifies this`sessions
      ensures storage.Some? && storage.value.Entries? ==>
        && NewestFirst(sessions) && multiset(sessions) == multiset(storage.value.sessions)
        && forall date :: DatedAt(sessions, date) == DatedAt(storage.value.sessions, date)
      ensures !(storage.Some? && storage.value.Entries?) ==> sessions == old(sessions)
    {
      if storage.Some? && storage.value.Entries? {
        sessions := SortNewestFirst(storage.value.sessions);
        forall date ensures DatedAt(sessions, date) == DatedAt(storage.value.sessions, date) {
          SortStable(storage.value.sessions, date);
        }
      }
    }

    /** Clicking a session selects it. */
    method Select(session: PastSession)
      modifies this`selectedSession
      ensures selectedSession == Some(session)
    {
      selectedSession := Some(session);
    }

    /** The back button, while a session is selected, clears the selection. */
    method Back()
      modifies this`selectedSession
      ensures selectedSession == None
    {
      selectedSession := None;
    }

    /**
     * deleteSession: drop every session with that id, store the new list, and
     * clear the selection exactly when the selected session has that id.
     */
    method DeleteSession(id: string)
      modifies this`sessions, this`storage, this`selectedSession
      ensures sessions == Without(old(sessions), id)
      ensures forall s :: s in sessions ==> s.id != id
      ensures storage == Some(Entries(sessions))
      ensures selectedSession == None <==> old(selectedSession) == None || old(selectedSession).value.id == id
      ensures selectedSession != None ==> selectedSession == old(selectedSession)
    {
      var updated := Without(sessions, id);
      sessions := updated;
      storage := Some(Entries(updated));
      if selectedSession.Some? && selectedSession.value.id == id {
        selectedSession := None;
      }
    }
  }
}
