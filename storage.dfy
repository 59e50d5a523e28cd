/** Persistence of conversations: the browser's local store under one key, and the
    Google Apps Script endpoint that keeps the shared copy. */
module Storage {
  import opened Types

  const LocalKey := "simuchat_sessions"
  const ScriptUrl := "https://script.google.com/macros/s/AKfycbz45K5qblI8JZIb2zFi4mBXraTZssLYZ7RlDvTmOATTTG9darSdm-VMI-vyRBtqr559/exec"
  const ClearedAlert := "Lokální data smazána. Pro smazání historie cloudu vymažte řádky v Google Tabulce."
  const PollIntervalMs := 10000

  /** One stored conversation as `JSON.parse` yields it; `hasMessages` is false when its
      `messages` member is absent or falsy. A member that is present but not an array makes
      both readers throw: the local value then reads as `Corrupt`, and a cloud answer as
      failed (`None`). */
  datatype Record = Record(session: ChatSession, hasMessages: bool)

  /** The value under the local key: absent (or empty), not valid JSON of a list, or a list. */
  datatype Stored = Missing | Corrupt | Present(records: seq<Record>)

  function Sessions(rs: seq<Record>): (r: seq<ChatSession>)
    ensures |r| == |rs| && forall i :: 0 <= i < |rs| ==> r[i] == rs[i].session
  {
    seq(|rs|, i requires 0 <= i < |rs| => rs[i].session)
  }

  /** What `JSON.stringify` of a list of sessions writes. */
  function Records(ss: seq<ChatSession>): (r: seq<Record>)
    ensures |r| == |ss| && forall i :: 0 <= i < |ss| ==> r[i] == Record(ss[i], true)
  {
    seq(|ss|, i requires 0 <= i < |ss| => Record(ss[i], true))
  }

  predicate AllHaveMessages(rs: seq<Record>) {
    forall i :: 0 <= i < |rs| ==> rs[i].hasMessages
  }

  /** Writing a list and parsing it back gives the same list. */
  lemma WrittenReadsBack(ss: seq<ChatSession>)
    ensures AllHaveMessages(Records(ss)) && Sessions(Records(ss)) == ss
  {
  }

  // ---------------------------------------------------------------- ordering

  /** Most recently active first. */
  predicate SortedByRecent(s: seq<ChatSession>) {
    forall i, j :: 0 <= i < j < |s| ==> s[i].lastActive >= s[j].lastActive
  }

  /** Placing x before the first entry that is not more recent than it. */
  function InsertByRecent(x: ChatSession, s: seq<ChatSession>): seq<ChatSession> {
    if s == [] || x.lastActive >= s[0].lastActive then [x] + s
    else [s[0]] + InsertByRecent(x, s[1..])
  }

  /** Inserting adds exactly x. */
  lemma {:induction false} InsertAddsOne(x: ChatSession, s: seq<ChatSession>)
    ensures multiset(InsertByRecent(x, s)) == multiset(s) + multiset{x}
    decreases |s|
  {
    if s != [] && x.lastActive < s[0].lastActive {
      InsertAddsOne(x, s[1..]);
      assert s == [s[0]] + s[1..];
    }
  }

  /** Inserting lengthens the list by one and puts x or the former front first. */
  lemma {:induction false} InsertFront(x: ChatSession, s: seq<ChatSession>)
    ensures |InsertByRecent(x, s)| == |s| + 1
    ensures s == [] ==> InsertByRecent(x, s) == [x]
    ensures s != [] ==> InsertByRecent(x, s)[0] == x || InsertByRecent(x, s)[0] == s[0]
    decreases |s|
  {
    if s != [] && x.lastActive < s[0].lastActive {
      InsertFront(x, s[1..]);
    }
  }

  /** Inserting into a sorted list keeps it sorted. */
  lemma {:induction false} InsertSorted(x: ChatSession, s: seq<ChatSession>)
    requires SortedByRecent(s)
    ensures SortedByRecent(InsertByRecent(x, s))
    decreases |s|
  {
    if s != [] && x.lastActive < s[0].lastActive {
      var rest := InsertByRecent(x, s[1..]);
      InsertSorted(x, s[1..]);
      InsertFront(x, s[1..]);
      var r := [s[0]] + rest;
      assert InsertByRecent(x, s) == r;
      assert rest[0].lastActive <= s[0].lastActive;
      forall i, j | 0 <= i < j < |r|
        ensures r[i].lastActive >= r[j].lastActive
      {
        if i == 0 {
          assert r[j] == rest[j - 1];
          assert rest[0].lastActive >= rest[j - 1].lastActive || j - 1 == 0;
        } else {
          assert r[i] == rest[i - 1] && r[j] == rest[j - 1];
        }
      }
    }
  }

  /** The stable sort by `lastActive`, descending, that `Array.prototype.sort` performs with
      the comparator `b.lastActive - a.lastActive`. */
  function SortByRecent(s: seq<ChatSession>): (r: seq<ChatSession>)
    ensures SortedByRecent(r)
    ensures multiset(r) == multiset(s)
  {
    if s == [] then []
    else
      assert s == [s[0]] + s[1..];
      InsertSorted(s[0], SortByRecent(s[1..]));
      InsertAddsOne(s[0], SortByRecent(s[1..]));
      InsertByRecent(s[0], SortByRecent(s[1..]))
  }

  /** The entries active at time t, in order. */
  function WithTime(s: seq<ChatSession>, t: int): seq<ChatSession> {
    if s == [] then []
    else (if s[0].lastActive == t then [s[0]] else []) + WithTime(s[1..], t)
  }

  /** `WithTime` of a list with a given front. */
  lemma WithTimeCons(y: ChatSession, s: seq<ChatSession>, t: int)
    ensures WithTime([y] + s, t) == (if y.lastActive == t then [y] else []) + WithTime(s, t)
  {
    assert ([y] + s)[1..] == s;
  }

  lemma {:induction false} InsertKeepsTies(x: ChatSession, s: seq<ChatSession>, t: int)
    ensures WithTime(InsertByRecent(x, s), t) == (if x.lastActive == t then [x] else []) + WithTime(s, t)
    decreases |s|
  {
    if s == [] || x.lastActive >= s[0].lastActive {
      WithTimeCons(x, s, t);
    } else {
      InsertKeepsTies(x, s[1..], t);
      WithTimeCons(s[0], InsertByRecent(x, s[1..]), t);
      WithTimeCons(s[0], s[1..], t);
      assert [s[0]] + s[1..] == s;
    }
  }

  /** The sort is stable: entries with equal `lastActive` keep their relative order. */
  lemma {:induction false} SortIsStable(s: seq<ChatSession>, t: int)
    ensures WithTime(SortByRecent(s), t) == WithTime(s, t)
    decreases |s|
  {
    if s != [] {
      SortIsStable(s[1..], t);
      InsertKeepsTies(s[0], SortByRecent(s[1..]), t);
    }
  }

  // ---------------------------------------------------------------- local store

  /** `getLocalSessions`: nothing for an absent or unparsable value, or when some entry
      has no message list (the mapping throws); otherwise the entries, most recent first. */
  function LoadLocal(item: Stored): (r: seq<ChatSession>)
    ensures SortedByRecent(r)
    ensures item.Missing? || item.Corrupt? ==> r == []
    ensures item.Present? && !AllHaveMessages(item.records) ==> r == []
    ensures item.Present? && AllHaveMessages(item.records) ==> multiset(r) == multiset(Sessions(item.records))
  {
    match item
    case Missing => []
    case Corrupt => []
    case Present(rs) => if AllHaveMessages(rs) then SortByRecent(Sessions(rs)) else []
  }

  /** `findIndex` by id: the first position holding that id, or -1. */
  function IndexOfId(s: seq<ChatSession>, id: string): (r: int)
    ensures -1 <= r < |s|
    ensures r == -1 <==> forall j :: 0 <= j < |s| ==> s[j].id != id
    ensures r >= 0 ==> s[r].id == id && forall j :: 0 <= j < r ==> s[j].id != id
  {
    if s == [] then -1
    else if s[0].id == id then 0
    else
      var k := IndexOfId(s[1..], id);
      if k == -1 then -1 else k + 1
  }

  /** `saveLocalSession`'s list: the entry with the session's id replaced, or the session
      added at the end. */
  function Upsert(s: seq<ChatSession>, session: ChatSession): seq<ChatSession> {
    var i := IndexOfId(s, session.id);
    if i >= 0 then s[i := session] else s + [session]
  }

  /** An existing id is overwritten in place, and no other entry changes. */
  lemma UpsertReplaces(s: seq<ChatSession>, session: ChatSession)
    requires exists j :: 0 <= j < |s| && s[j].id == session.id
    ensures var r := Upsert(s, session);
      && |r| == |s|
      && var i := IndexOfId(s, session.id);
         0 <= i && r[i] == session && forall j :: 0 <= j < |s| && j != i ==> r[j] == s[j]
  {
  }

  /** A new id is added at the end, and the list grows by one. */
  lemma UpsertAppends(s: seq<ChatSession>, session: ChatSession)
    requires forall j :: 0 <= j < |s| ==> s[j].id != session.id
    ensures Upsert(s, session) == s + [session]
    ensures |Upsert(s, session)| == |s| + 1
  {
  }

  predicate UniqueIds(s: seq<ChatSession>) {
    forall i, j :: 0 <= i < j < |s| ==> s[i].id != s[j].id
  }

  /** Ids that were unique stay unique, and the saved session is present. */
  lemma UpsertKeepsIdsUnique(s: seq<ChatSession>, session: ChatSession)
    requires UniqueIds(s)
    ensures UniqueIds(Upsert(s, session))
    ensures session in Upsert(s, session)
  {
    var r := Upsert(s, session);
    var i := IndexOfId(s, session.id);
    if i >= 0 {
      assert r[i] == session;
      forall a, b | 0 <= a < b < |r|
        ensures r[a].id != r[b].id
      {
        if a == i {
          assert s[b].id != s[i].id;
        } else if b == i {
          assert s[a].id != s[i].id;
        }
      }
    } else {
      assert r[|s|] == session;
    }
  }

  /** The local part of `deleteSession`: the entries with other ids, in their order. */
  function WithoutId(s: seq<ChatSession>, id: string): (r: seq<ChatSession>)
    ensures forall x :: x in r <==> x in s && x.id != id
    ensures |r| <= |s|
  {
    if s == [] then []
    else
      assert s == [s[0]] + s[1..];
      (if s[0].id != id then [s[0]] else []) + WithoutId(s[1..], id)
  }

  /** The filter works piecewise, so the kept entries stay in their existing order. */
  lemma {:induction false} WithoutIdSplits(a: seq<ChatSession>, b: seq<ChatSession>, id: string)
    ensures WithoutId(a + b, id) == WithoutId(a, id) + WithoutId(b, id)
    decreases |a|
  {
    if a != [] {
      assert (a + b)[1..] == a[1..] + b;
      WithoutIdSplits(a[1..], b, id);
    } else {
      assert a + b == b;
    }
  }

  /** A list without the id is left exactly as it is. */
  lemma {:induction false} WithoutAbsentId(s: seq<ChatSession>, id: string)
    requires forall j :: 0 <= j < |s| ==> s[j].id != id
    ensures WithoutId(s, id) == s
    decreases |s|
  {
    if s != [] {
      WithoutAbsentId(s[1..], id);
      assert s == [s[0]] + s[1..];
    }
  }

  // ---------------------------------------------------------------- cloud

  /** `isCloudActive`: a script URL is configured. */
  predicate IsCloudActive(url: string) {
    url != ""
  }

  /** A cloud entry without a message list is read with no messages. */
  function CloudSession(r: Record): (s: ChatSession)
    ensures s.(messages := []) == r.session.(messages := [])
    ensures s.messages == if r.hasMessages then r.session.messages else []
  {
    if r.hasMessages then r.session else r.session.(messages := [])
  }

  function CloudSessions(rs: seq<Record>): (r: seq<ChatSession>)
    ensures |r| == |rs| && forall i :: 0 <= i < |rs| ==> r[i] == CloudSession(rs[i])
  {
    seq(|rs|, i requires 0 <= i < |rs| => CloudSession(rs[i]))
  }

  /** A request sent to the script. */
  datatype CloudRequest = PostSession(session: ChatSession) | PostDelete(id: string) | FetchAll

  /** The browser's store under `LocalKey`, the script endpoint and the requests sent to it. */
  class Backend {
    const scriptUrl: string
    var item: Stored
    var requests: seq<CloudRequest>
    var alerts: seq<string>

    constructor (url: string, item: Stored)
      ensures scriptUrl == url && this.item == item && requests == [] && alerts == []
    {
      scriptUrl := url;
      this.item := item;
      requests, alerts := [], [];
    }

    /** `saveLocalSession`: the loaded list with the session upserted is written back. */
    method SaveLocalSession(session: ChatSession)
      modifies this`item
      ensures item == Present(Records(Upsert(LoadLocal(old(item)), session)))
    {
      var sessions := LoadLocal(item);
      var index := IndexOfId(sessions, session.id);
      if index >= 0 {
        sessions := sessions[index := session];
      } else {
        sessions := sessions + [session];
      }
      item := Present(Records(sessions));
    }

    /** `saveSession`: always saved locally first; then posted when the cloud is active.
        A failed post changes nothing. */
    method SaveSession(session: ChatSession)
      modifies this`item, this`requests
      ensures item == Present(Records(Upsert(LoadLocal(old(item)), session)))
      ensures requests == old(requests) + (if IsCloudActive(scriptUrl) then [PostSession(session)] else [])
    {
      SaveLocalSession(session);
      if IsCloudActive(scriptUrl) {
        requests := requests + [PostSession(session)];
      }
    }

    /** `fetchCloudSessions`, given the script's answer (None when the request or the
        parse failed): without a URL the local list, after a failure nothing, otherwise the
        answer most recent first. */
    method FetchCloudSessions(answer: Option<seq<Record>>) returns (r: seq<ChatSession>)
      modifies this`requests
      ensures !IsCloudActive(scriptUrl) ==> r == LoadLocal(item) && requests == old(requests)
      ensures IsCloudActive(scriptUrl) ==> requests == old(requests) + [FetchAll]
      ensures IsCloudActive(scriptUrl) && answer.None? ==> r == []
      ensures IsCloudActive(scriptUrl) && answer.Some? ==> r == SortByRecent(CloudSessions(answer.value))
    {
      if !IsCloudActive(scriptUrl) {
        return LoadLocal(item);
      }
      requests := requests + [FetchAll];
      if answer.None? {
        return [];
      }
      r := SortByRecent(CloudSessions(answer.value));
    }

    /** One delivery of `subscribeToSessions` (the first, or one every 10 s): the cloud
        list while the cloud is active, otherwise the local list. */
    method LoadData(answer: Option<seq<Record>>) returns (delivered: seq<ChatSession>)
      modifies this`requests
      ensures SortedByRecent(delivered)
      ensures !IsCloudActive(scriptUrl) ==> delivered == LoadLocal(item) && requests == old(requests)
      ensures IsCloudActive(scriptUrl) ==> requests == old(requests) + [FetchAll]
      ensures IsCloudActive(scriptUrl) ==>
        delivered == if answer.Some? then SortByRecent(CloudSessions(answer.value)) else []
    {
      if IsCloudActive(scriptUrl) {
        delivered := FetchCloudSessions(answer);
      } else {
        delivered := LoadLocal(item);
      }
    }

    /** `deleteSession`: the local list without the id is written back; when the cloud is
        active a delete request is posted. */
    method DeleteSession(id: string)
      modifies this`item, this`requests
      ensures item == Present(Records(WithoutId(LoadLocal(old(item)), id)))
      ensures requests == old(requests) + (if IsCloudActive(scriptUrl) then [PostDelete(id)] else [])
    {
      var sessions := WithoutId(LoadLocal(item), id);
      item := Present(Records(sessions));
      if IsCloudActive(scriptUrl) {
        requests := requests + [PostDelete(id)];
      }
    }

    /** `clearAllSessions`: the key is removed (the cloud copy is kept) and the user told. */
    method ClearAllSessions()
      modifies this`item, this`alerts
      ensures item == Missing && LoadLocal(item) == []
      ensures alerts == old(alerts) + [ClearedAlert]
    {
      item := Missing;
      alerts := alerts + [ClearedAlert];
    }
  }

  /** After a save, loading finds the saved session. */
  lemma SavedSessionLoads(item: Stored, session: ChatSession)
    ensures session in LoadLocal(Present(Records(Upsert(LoadLocal(item), session))))
  {
    var s := Upsert(LoadLocal(item), session);
    WrittenReadsBack(s);
    var i := IndexOfId(LoadLocal(item), session.id);
    if i >= 0 {
      assert s[i] == session;
    } else {
      assert s[|s| - 1] == session;
    }
    assert session in multiset(s);
  }

  /** After a delete, loading finds no entry with that id and every other loaded entry. */
  lemma DeletedSessionGone(item: Stored, id: string)
    ensures var after := LoadLocal(Present(Records(WithoutId(LoadLocal(item), id))));
      && (forall x :: x in after ==> x.id != id)
      && (forall x :: x in LoadLocal(item) && x.id != id ==> x in after)
  {
    var kept := WithoutId(LoadLocal(item), id);
    WrittenReadsBack(kept);
    var after := LoadLocal(Present(Records(kept)));
    assert multiset(after) == multiset(kept);
    forall x | x in after
      ensures x.id != id
    {
      assert x in multiset(kept);
    }
    forall x | x in LoadLocal(item) && x.id != id
      ensures x in after
    {
      assert x in multiset(after);
    }
  }
}
