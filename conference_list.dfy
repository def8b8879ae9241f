/** The list logic of the conference schedule view: trimming the schedule or
    the saved list to the rows a card shows (`adjustData`), the saved-star test
    (`isSaved`) and grouping sessions by start time (`convertToTimeMap`).
    A lookup of an id the schedule map lacks throws a TypeError in the view;
    here that is a result of its own. */
module ConferenceList {
  import opened Js
  import opened Seqs

  type Id = string

  /** A session of the schedule map; only its start time (milliseconds) matters here. */
  datatype Session = Session(id: Id, startTime: int)

  /** What `adjustData` returns: ids, ids padded with `undefined` (`None`), or
      the TypeError raised on a saved id the schedule map does not hold. */
  datatype Adjusted =
    | Keys(ids: seq<Id>)
    | Padded(slots: seq<Option<Id>>)
    | MissingSession(key: Id)

  /** The first position of an id that `sessions` lacks, or -1. */
  function FirstMissing(keys: seq<Id>, sessions: map<Id, Session>): (r: int)
    ensures r == -1 <==> forall k :: 0 <= k < |keys| ==> keys[k] in sessions
    ensures 0 <= r ==> r < |keys| && keys[r] !in sessions && forall k :: 0 <= k < r ==> keys[k] in sessions
  {
    if keys == [] then -1
    else if keys[0] !in sessions then 0
    else
      var r := FirstMissing(keys[1..], sessions);
      if r < 0 then -1 else r + 1
  }

  // ---------------------------------------------------------------------------
  // adjustData

  /** The session has begun: `now > start-time`. */
  predicate Started(sessions: map<Id, Session>, now: int, key: Id)
  {
    key in sessions && now > sessions[key].startTime
  }

  function NotStarted(sessions: map<Id, Session>, now: int): Id -> bool
  {
    (key: Id) => !Started(sessions, now, key)
  }

  /** The ids whose sessions have not started, in order: what is left of the
      list once the scan has spliced out the started ones. */
  function Upcoming(keys: seq<Id>, sessions: map<Id, Session>, now: int): (r: seq<Id>)
    ensures |r| <= |keys|
  {
    if keys == [] then []
    else
      var last := keys[|keys| - 1];
      Upcoming(keys[..|keys| - 1], sessions, now) + (if Started(sessions, now, last) then [] else [last])
  }

  lemma {:induction false} UpcomingIsFilter(keys: seq<Id>, sessions: map<Id, Session>, now: int)
    ensures Upcoming(keys, sessions, now) == Filter(keys, NotStarted(sessions, now))
  {
    if keys != [] {
      var init := keys[..|keys| - 1];
      UpcomingIsFilter(init, sessions, now);
      assert init + [keys[|keys| - 1]] == keys;
      FilterSnoc(init, keys[|keys| - 1], NotStarted(sessions, now));
    }
  }

  lemma UpcomingMembership(keys: seq<Id>, sessions: map<Id, Session>, now: int, x: Id)
    ensures x in Upcoming(keys, sessions, now) <==> x in keys && !Started(sessions, now, x)
  {
    UpcomingIsFilter(keys, sessions, now);
    FilterMembership(keys, NotStarted(sessions, now), x);
  }

  /** How many saved ids remain once the scan has looked at the first `p`:
      each started session among them is removed. */
  function Remaining(saved: seq<Id>, sessions: map<Id, Session>, now: int, p: nat): int
    requires p <= |saved|
  {
    if p == 0 then |saved|
    else Remaining(saved, sessions, now, p - 1) - (if Started(sessions, now, saved[p - 1]) then 1 else 0)
  }

  /** Where the scan stops: the first `p >= 1` after which at most `rows` ids
      remain, or the end of the list. */
  function ScanEnd(saved: seq<Id>, sessions: map<Id, Session>, now: int, rows: nat, p: nat): (e: nat)
    requires 1 <= p <= |saved|
    ensures p <= e <= |saved|
    ensures e == |saved| || Remaining(saved, sessions, now, e) <= rows
    ensures forall q :: p <= q < e ==> Remaining(saved, sessions, now, q) > rows
    decreases |saved| - p
  {
    if p == |saved| || Remaining(saved, sessions, now, p) <= rows then p
    else ScanEnd(saved, sessions, now, rows, p + 1)
  }

  function Take<T>(s: seq<T>, n: nat): seq<T>
  {
    if |s| > n then s[..n] else s
  }

  /** The personal home card's list when more ids are saved than it shows:
      drop the sessions that have started, in saved order, until at most `rows`
      remain, then keep the first `rows`. */
  function TrimSaved(sessions: map<Id, Session>, saved: seq<Id>, rows: nat, now: int): Adjusted
    requires 0 < rows < |saved|
  {
    var e := ScanEnd(saved, sessions, now, rows, 1);
    var m := FirstMissing(saved[..e], sessions);
    if m >= 0 then MissingSession(saved[m])
    else Keys(Take(Upcoming(saved[..e], sessions, now) + saved[e..], rows))
  }


  /** One step of the scan: a started session is spliced out of the working list. */
  function ScanStep(temp: seq<Id>, key: Id, sessions: map<Id, Session>, now: int): seq<Id>
  {
    if Started(sessions, now, key) then RemoveFirst(temp, key) else temp
  }

  /** The scan's working list after it has looked at `saved[..j]`. */
  function Pending(saved: seq<Id>, sessions: map<Id, Session>, now: int, j: nat): seq<Id>
    requires j <= |saved|
  {
    if j == 0 then saved else ScanStep(Pending(saved, sessions, now, j - 1), saved[j - 1], sessions, now)
  }

  lemma UpcomingStep(saved: seq<Id>, sessions: map<Id, Session>, now: int, i: nat)
    requires i < |saved|
    ensures Upcoming(saved[..i + 1], sessions, now) ==
      Upcoming(saved[..i], sessions, now) + (if Started(sessions, now, saved[i]) then [] else [saved[i]])
    ensures Started(sessions, now, saved[i]) ==> saved[i] !in Upcoming(saved[..i], sessions, now)
  {
    assert saved[..i + 1][..i] == saved[..i];
    UpcomingMembership(saved[..i], sessions, now, saved[i]);
  }

  /** A scan step on a working list of the expected shape. */
  lemma ScanStepShape(done: seq<Id>, key: Id, rest: seq<Id>, sessions: map<Id, Session>, now: int)
    requires Started(sessions, now, key) ==> key !in done
    ensures ScanStep(done + ([key] + rest), key, sessions, now) ==
      done + (if Started(sessions, now, key) then [] else [key]) + rest
  {
    if Started(sessions, now, key) {
      assert done + ([key] + rest) == done + [key] + rest;
      RemoveFirstAfter(done, key, rest);
    }
  }

  /** The working list holds the examined ids that have not started, then the
      ids still to examine. */
  lemma {:induction false} PendingIsUpcoming(saved: seq<Id>, sessions: map<Id, Session>, now: int, j: nat)
    requires j <= |saved|
    ensures Pending(saved, sessions, now, j) == Upcoming(saved[..j], sessions, now) + saved[j..]
  {
    if j == 0 {
      assert saved[..0] == [];
    } else {
      var i := j - 1;
      PendingIsUpcoming(saved, sessions, now, i);
      UpcomingStep(saved, sessions, now, i);
      assert saved[i..] == [saved[i]] + saved[j..];
      ScanStepShape(Upcoming(saved[..i], sessions, now), saved[i], saved[j..], sessions, now);
    }
  }

  lemma {:induction false} PendingSize(saved: seq<Id>, sessions: map<Id, Session>, now: int, j: nat)
    requires j <= |saved|
    ensures |Pending(saved, sessions, now, j)| == Remaining(saved, sessions, now, j)
  {
    if j > 0 {
      PendingSize(saved, sessions, now, j - 1);
      PendingIsUpcoming(saved, sessions, now, j - 1);
      var done := Upcoming(saved[..j - 1], sessions, now);
      assert Pending(saved, sessions, now, j - 1)[|done|] == saved[j - 1];
    }
  }

  /** While more than `rows` remain, the scan has not reached its stopping point. */
  lemma ScanGoesOn(saved: seq<Id>, sessions: map<Id, Session>, now: int, rows: nat, j: nat)
    requires 0 < rows < |saved| && j < |saved|
    requires j <= ScanEnd(saved, sessions, now, rows, 1)
    requires 1 <= j ==> |Pending(saved, sessions, now, j)| > rows
    ensures j < ScanEnd(saved, sessions, now, rows, 1)
  {
    PendingSize(saved, sessions, now, j);
  }

  /** The scan hit an id without a session before it could stop. */
  lemma ScanMissing(saved: seq<Id>, sessions: map<Id, Session>, now: int, rows: nat, j: nat)
    requires 0 < rows < |saved| && j < |saved|
    requires j <= ScanEnd(saved, sessions, now, rows, 1)
    requires 1 <= j ==> |Pending(saved, sessions, now, j)| > rows
    requires forall k :: 0 <= k < j ==> saved[k] in sessions
    requires saved[j] !in sessions
    ensures TrimSaved(sessions, saved, rows, now) == MissingSession(saved[j])
  {
    var e := ScanEnd(saved, sessions, now, rows, 1);
    ScanGoesOn(saved, sessions, now, rows, j);
    assert saved[..e][j] == saved[j];
    assert forall k :: 0 <= k < j ==> saved[..e][k] == saved[k];
  }

  /** Where the loop leaves off is where the scan ends, and what it keeps is the trimmed list. */
  lemma ScanDone(saved: seq<Id>, sessions: map<Id, Session>, now: int, rows: nat, j: nat)
    requires 0 < rows < |saved| && 1 <= j <= ScanEnd(saved, sessions, now, rows, 1)
    requires j == |saved| || |Pending(saved, sessions, now, j)| <= rows
    requires forall k :: 0 <= k < j ==> saved[k] in sessions
    ensures TrimSaved(sessions, saved, rows, now) == Keys(Take(Pending(saved, sessions, now, j), rows))
  {
    PendingIsUpcoming(saved, sessions, now, j);
    PendingSize(saved, sessions, now, j);
    assert j == ScanEnd(saved, sessions, now, rows, 1);
    assert FirstMissing(saved[..j], sessions) == -1 by {
      assert forall k :: 0 <= k < j ==> saved[..j][k] == saved[k];
    }
  }

  /** The loop of `adjustData` over a saved list longer than the card. */
  method ScanSaved(sessions: map<Id, Session>, saved: seq<Id>, rows: nat, now: int) returns (r: Adjusted)
    requires 0 < rows < |saved|
    ensures r == TrimSaved(sessions, saved, rows, now)
  {
    var temp := saved;
    var j := 0;
    while j < |saved|
      invariant j <= |saved| && j <= ScanEnd(saved, sessions, now, rows, 1)
      invariant forall k :: 0 <= k < j ==> saved[k] in sessions
      invariant temp == Pending(saved, sessions, now, j)
      invariant 1 <= j ==> |temp| > rows
    {
      var key := saved[j];
      if key !in sessions {
        ScanMissing(saved, sessions, now, rows, j);
        return MissingSession(key);
      }
      ScanGoesOn(saved, sessions, now, rows, j);
      if now > sessions[key].startTime {
        temp := RemoveFirst(temp, key);
      }
      j := j + 1;
      if |temp| <= rows {
        break;
      }
    }
    ScanDone(saved, sessions, now, rows, j);
    if |temp| > rows {
      return Keys(temp[..rows]);
    }
    return Keys(temp);
  }

  method AdjustData(
    sessions: map<Id, Session>, scheduleIds: seq<Id>, savedArray: MaybeArray<Id>,
    personal: bool, rows: nat, now: int)
    returns (r: Adjusted)
    ensures (!personal || savedArray.NotArray?) && rows == 0 ==> r == Keys(scheduleIds)
    ensures (!personal || savedArray.NotArray?) && rows > 0 ==>
      r.Padded? && |r.slots| == rows &&
      forall i :: 0 <= i < rows ==> r.slots[i] == if i < |scheduleIds| then Some(scheduleIds[i]) else None
    ensures personal && savedArray.Array? && (rows == 0 || |savedArray.items| <= rows) ==>
      r == Keys(savedArray.items)
    ensures personal && savedArray.Array? && 0 < rows < |savedArray.items| ==>
      r == TrimSaved(sessions, savedArray.items, rows, now)
  {
    if !personal || savedArray.NotArray? {
      if rows == 0 {
        return Keys(scheduleIds);
      }
      var trimmed: seq<Option<Id>> := [];
      for i := 0 to rows
        invariant |trimmed| == i
        invariant forall k :: 0 <= k < i ==> trimmed[k] == if k < |scheduleIds| then Some(scheduleIds[k]) else None
      {
        trimmed := trimmed + [if i < |scheduleIds| then Some(scheduleIds[i]) else None];
      }
      return Padded(trimmed);
    }
    var saved := savedArray.items;
    var filtered: seq<Id> := [];
    for i := 0 to |saved|
      invariant filtered == saved[..i]
    {
      filtered := filtered + [saved[i]];
    }
    assert saved[..|saved|] == saved;
    if rows > 0 && |filtered| > rows {
      r := ScanSaved(sessions, filtered, rows, now);
    } else {
      r := Keys(filtered);
    }
  }

  /** The saved-list trim fails exactly when the scan meets an id without a
      session before it stops, and it names that id. */
  lemma TrimSavedMissing(sessions: map<Id, Session>, saved: seq<Id>, rows: nat, now: int)
    requires 0 < rows < |saved|
    ensures var e := ScanEnd(saved, sessions, now, rows, 1);
      var r := TrimSaved(sessions, saved, rows, now);
      && (r.MissingSession? <==> exists k :: 0 <= k < e && saved[k] !in sessions)
      && (r.MissingSession? ==> r.key in saved && r.key !in sessions)
  {
    var e := ScanEnd(saved, sessions, now, rows, 1);
    var m := FirstMissing(saved[..e], sessions);
    assert forall k :: 0 <= k < e ==> saved[..e][k] == saved[k];
  }

  /** When no id is missing, the trimmed list is the first `rows` of the ids the
      scan kept, and there are at least `rows` of them: the count falls by at
      most one per id examined, from above `rows`. */
  lemma TrimSavedTakes(sessions: map<Id, Session>, saved: seq<Id>, rows: nat, now: int)
    requires 0 < rows < |saved|
    requires TrimSaved(sessions, saved, rows, now).Keys?
    ensures var e := ScanEnd(saved, sessions, now, rows, 1);
      var kept := Upcoming(saved[..e], sessions, now) + saved[e..];
      rows <= |kept| && TrimSaved(sessions, saved, rows, now).ids == kept[..rows]
  {
    var e := ScanEnd(saved, sessions, now, rows, 1);
    RemainingAtEnd(saved, sessions, now, rows);
    PendingIsUpcoming(saved, sessions, now, e);
    PendingSize(saved, sessions, now, e);
  }

  /** Where the scan stops at least `rows` ids remain. */
  lemma RemainingAtEnd(saved: seq<Id>, sessions: map<Id, Session>, now: int, rows: nat)
    requires 0 < rows < |saved|
    ensures Remaining(saved, sessions, now, ScanEnd(saved, sessions, now, rows, 1)) >= rows
  {
    var e := ScanEnd(saved, sessions, now, rows, 1);
    if e > 1 {
      assert Remaining(saved, sessions, now, e - 1) > rows;
    }
  }

  /** What the scan keeps is a subsequence of the saved list. */
  lemma KeptIsSubsequence(saved: seq<Id>, sessions: map<Id, Session>, now: int, e: nat)
    requires e <= |saved|
    ensures IsSubsequence(Upcoming(saved[..e], sessions, now) + saved[e..], saved)
  {
    UpcomingIsFilter(saved[..e], sessions, now);
    FilterIsSubsequence(saved[..e], NotStarted(sessions, now));
    SubsequenceReflexive(saved[e..]);
    SubsequenceConcat(Upcoming(saved[..e], sessions, now), saved[..e], saved[e..], saved[e..]);
    assert saved[..e] + saved[e..] == saved;
  }

  /** The personal home card shows exactly `rows` saved ids, in saved order; the
      scan stops as soon as at most `rows` ids remain, and every id shown has
      not started or lies past the point where the scan stopped. */
  lemma TrimSavedKeepsRows(sessions: map<Id, Session>, saved: seq<Id>, rows: nat, now: int)
    requires 0 < rows < |saved|
    ensures var e := ScanEnd(saved, sessions, now, rows, 1);
      var r := TrimSaved(sessions, saved, rows, now);
      r.Keys? ==>
        && |r.ids| == rows
        && IsSubsequence(r.ids, saved)
        && (forall q :: 1 <= q < e ==> Remaining(saved, sessions, now, q) > rows)
        && (forall x :: x in r.ids ==> x in saved[e..] || !Started(sessions, now, x))
  {
    var e := ScanEnd(saved, sessions, now, rows, 1);
    var r := TrimSaved(sessions, saved, rows, now);
    if r.Keys? {
      TrimSavedTakes(sessions, saved, rows, now);
      var head := Upcoming(saved[..e], sessions, now);
      var kept := head + saved[e..];
      KeptIsSubsequence(saved, sessions, now, e);
      SubsequencePrefix(kept, saved, rows);
      forall x | x in r.ids ensures x in saved[e..] || !Started(sessions, now, x) {
        assert x in kept;
        UpcomingMembership(saved[..e], sessions, now, x);
      }
    }
  }

  /** When the scan stopped early nothing is cut: every id past the stopping
      point and every examined id that has not started is shown. When it ran to
      the end, the first `rows` ids that have not started are shown. */
  lemma TrimSavedStops(sessions: map<Id, Session>, saved: seq<Id>, rows: nat, now: int)
    requires 0 < rows < |saved|
    ensures var e := ScanEnd(saved, sessions, now, rows, 1);
      var r := TrimSaved(sessions, saved, rows, now);
      r.Keys? ==>
        && (e < |saved| ==>
              && (forall k :: e <= k < |saved| ==> saved[k] in r.ids)
              && (forall k :: 0 <= k < e && !Started(sessions, now, saved[k]) ==> saved[k] in r.ids))
        && (e == |saved| ==> r.ids == Take(Upcoming(saved, sessions, now), rows))
  {
    var e := ScanEnd(saved, sessions, now, rows, 1);
    var r := TrimSaved(sessions, saved, rows, now);
    if r.Keys? {
      TrimSavedTakes(sessions, saved, rows, now);
      var head := Upcoming(saved[..e], sessions, now);
      var kept := head + saved[e..];
      if e < |saved| {
        PendingIsUpcoming(saved, sessions, now, e);
        PendingSize(saved, sessions, now, e);
        assert r.ids == kept;
        forall k | e <= k < |saved| ensures saved[k] in r.ids {
          assert kept[|head| + (k - e)] == saved[k];
        }
        forall k | 0 <= k < e && !Started(sessions, now, saved[k]) ensures saved[k] in r.ids {
          assert saved[..e][k] == saved[k];
          UpcomingMembership(saved[..e], sessions, now, saved[k]);
        }
      } else {
        assert saved[..e] == saved;
        assert kept == head;
      }
    }
  }

  // ---------------------------------------------------------------------------
  // isSaved

  /** `true` when `id` is saved, `false` for a non-array, `undefined` otherwise. */
  method IsSaved(savedArray: MaybeArray<Id>, id: Id) returns (r: Value)
    ensures r == Bool(true) <==> savedArray.Array? && id in savedArray.items
    ensures savedArray.NotArray? ==> r == Bool(false)
    ensures savedArray.Array? && id !in savedArray.items ==> r == Undefined
    ensures Truthy(r) <==> savedArray.Array? && id in savedArray.items
  {
    if savedArray.Array? {
      var items := savedArray.items;
      for i := 0 to |items|
        invariant id !in items[..i]
      {
        if items[i] == id {
          return Bool(true);
        }
        assert items[..i + 1] == items[..i] + [items[i]];
      }
      assert items[..|items|] == items;
      return Undefined;
    } else {
      return Bool(false);
    }
  }

  // ---------------------------------------------------------------------------
  // convertToTimeMap

  /** What `convertToTimeMap` returns: buckets of sessions keyed by start time,
      with the order in which the keys were added to the object (the order its
      keys are listed in, and so the order of the sections on screen, for
      keys that are not array indices), or the TypeError raised on an id the
      schedule map does not hold. */
  datatype Grouping = Grouped(order: seq<int>, buckets: map<int, seq<Session>>) | NoSession(key: Id)

  function SessionsOf(sessions: map<Id, Session>, keys: seq<Id>): (ss: seq<Session>)
    requires forall k :: 0 <= k < |keys| ==> keys[k] in sessions
    ensures |ss| == |keys|
    ensures forall i :: 0 <= i < |keys| ==> ss[i] == sessions[keys[i]]
  {
    seq(|keys|, i requires 0 <= i < |keys| => sessions[keys[i]])
  }

  function StartsAt(t: int): Session -> bool
  {
    (s: Session) => s.startTime == t
  }

  /** The sessions starting at `t`, in input order. */
  function Bucket(ss: seq<Session>, t: int): seq<Session>
  {
    Filter(ss, StartsAt(t))
  }

  function StartTimes(ss: seq<Session>): set<int>
  {
    set i | 0 <= i < |ss| :: ss[i].startTime
  }

  function DropLast<T>(s: seq<T>): seq<T>
  {
    if s == [] then [] else s[..|s| - 1]
  }

  lemma EmptyBucket(ss: seq<Session>, t: int)
    requires t !in StartTimes(ss)
    ensures Bucket(ss, t) == []
  {
    if Bucket(ss, t) != [] {
      FilterMembership(ss, StartsAt(t), Bucket(ss, t)[0]);
    }
  }

  lemma MissingAt(keys: seq<Id>, sessions: map<Id, Session>, i: nat)
    requires i < |keys|
    requires forall k :: 0 <= k < i ==> keys[k] in sessions
    requires keys[i] !in sessions
    ensures FirstMissing(keys, sessions) == i
  {
  }

  lemma SessionsSnoc(sessions: map<Id, Session>, keys: seq<Id>, i: nat)
    requires i < |keys|
    requires forall k :: 0 <= k <= i ==> keys[k] in sessions
    ensures SessionsOf(sessions, keys[..i + 1]) == SessionsOf(sessions, keys[..i]) + [sessions[keys[i]]]
  {
  }

  lemma StartTimesSnoc(ss: seq<Session>, s: Session)
    ensures StartTimes(ss + [s]) == StartTimes(ss) + {s.startTime}
  {
    var after := ss + [s];
    forall t | t in StartTimes(after) ensures t in StartTimes(ss) + {s.startTime} {
      var k :| 0 <= k < |after| && after[k].startTime == t;
      if k < |ss| {
        assert ss[k] == after[k];
      }
    }
    forall t | t in StartTimes(ss) ensures t in StartTimes(after) {
      var k :| 0 <= k < |ss| && ss[k].startTime == t;
      assert after[k] == ss[k];
    }
    assert after[|ss|] == s;
  }

  lemma BucketSnoc(ss: seq<Session>, s: Session)
    ensures forall t :: Bucket(ss + [s], t) == Bucket(ss, t) + (if t == s.startTime then [s] else [])
  {
    forall t ensures Bucket(ss + [s], t) == Bucket(ss, t) + (if t == s.startTime then [s] else []) {
      FilterSnoc(ss, s, StartsAt(t));
    }
  }

  /** The distinct start times of `ss`, in the order of their first session. */
  function FirstStarts(ss: seq<Session>): seq<int>
  {
    if ss == [] then []
    else
      var earlier := FirstStarts(ss[..|ss| - 1]);
      var t := ss[|ss| - 1].startTime;
      if t in earlier then earlier else earlier + [t]
  }

  lemma FirstStartsSnoc(ss: seq<Session>, s: Session)
    ensures FirstStarts(ss + [s]) ==
      if s.startTime in FirstStarts(ss) then FirstStarts(ss) else FirstStarts(ss) + [s.startTime]
  {
    assert (ss + [s])[..|ss|] == ss;
  }

  /** The section order lists every start time once. */
  lemma {:induction false} FirstStartsCovers(ss: seq<Session>)
    ensures forall t :: t in FirstStarts(ss) <==> t in StartTimes(ss)
    ensures Distinct(FirstStarts(ss))
    decreases |ss|
  {
    if ss != [] {
      var init := ss[..|ss| - 1];
      var last := ss[|ss| - 1];
      FirstStartsCovers(init);
      assert init + [last] == ss;
      StartTimesSnoc(init, last);
    }
  }

  /** Sections are only ever added at the end: the order after a prefix of
      the sessions is a prefix of the final order, and a session's start time
      is listed as soon as that session has been seen. */
  lemma {:induction false} FirstStartsGrows(ss: seq<Session>, k: nat)
    requires k <= |ss|
    ensures FirstStarts(ss[..k]) <= FirstStarts(ss)
    ensures k < |ss| ==> ss[k].startTime in FirstStarts(ss[..k + 1])
    decreases |ss| - k
  {
    if k < |ss| {
      FirstStartsSnoc(ss[..k], ss[k]);
      assert ss[..k] + [ss[k]] == ss[..k + 1];
      FirstStartsGrows(ss, k + 1);
    } else {
      assert ss[..k] == ss;
    }
  }

  /** In a sequence that begins with `pre` and then `y`, an element of `pre`
      is found before `y` when `y` is not in `pre`. */
  lemma IndexBeforeNext<T>(s: seq<T>, pre: seq<T>, x: T, y: T)
    requires pre + [y] <= s
    requires x in pre && y !in pre
    ensures 0 <= IndexOf(s, x) < IndexOf(s, y) == |pre|
  {
    assert forall k | 0 <= k < |pre| :: s[k] == pre[k];
    assert s[|pre|] == y;
    assert forall n | |pre| < n <= |s| :: y in s[..n];
    var a := IndexOf(pre, x);
    assert s[a] == x;
    assert forall n | a < n <= |s| :: x in s[..n];
  }

  /** A session seen before position `j` has its section listed by then. */
  lemma ListedBefore(ss: seq<Session>, i: nat, j: nat)
    requires i < j <= |ss|
    ensures ss[i].startTime in FirstStarts(ss[..j])
  {
    var prefix := ss[..j];
    FirstStartsGrows(prefix, i);
    FirstStartsGrows(prefix, i + 1);
    assert prefix[..i + 1] == ss[..i + 1] && prefix[i] == ss[i];
  }

  /** The time of the first session starting then is not listed before it. */
  lemma NotListedBefore(ss: seq<Session>, j: nat)
    requires j < |ss|
    requires forall k :: 0 <= k < j ==> ss[k].startTime != ss[j].startTime
    ensures ss[j].startTime !in FirstStarts(ss[..j])
  {
    var prefix := ss[..j];
    FirstStartsCovers(prefix);
    forall k | 0 <= k < |prefix| ensures prefix[k].startTime != ss[j].startTime {
      assert prefix[k] == ss[k];
    }
  }

  /** A new start time is listed right after the sections before it. */
  lemma ListedNext(ss: seq<Session>, j: nat)
    requires j < |ss|
    requires ss[j].startTime !in FirstStarts(ss[..j])
    ensures FirstStarts(ss[..j]) + [ss[j].startTime] <= FirstStarts(ss)
  {
    FirstStartsExtends(ss, j);
    FirstStartsGrows(ss, j + 1);
    SnocPrefix(FirstStarts(ss[..j]), ss[j].startTime, FirstStarts(ss[..j + 1]), FirstStarts(ss));
  }

  /** A start time not yet listed is appended by the next session. */
  lemma FirstStartsExtends(ss: seq<Session>, j: nat)
    requires j < |ss|
    requires ss[j].startTime !in FirstStarts(ss[..j])
    ensures FirstStarts(ss[..j + 1]) == FirstStarts(ss[..j]) + [ss[j].startTime]
  {
    assert ss[..j + 1] == ss[..j] + [ss[j]];
    FirstStartsSnoc(ss[..j], ss[j]);
  }

  /** A prefix extended by one element stays a prefix of whatever the
      extension is a prefix of. */
  lemma SnocPrefix<T>(a: seq<T>, y: T, b: seq<T>, c: seq<T>)
    requires b == a + [y] && b <= c
    ensures a + [y] <= c
  {
  }

  /** When session `j` is the first to start at its time, every session before
      it belongs to an earlier section. */
  lemma SectionOrder(ss: seq<Session>, i: nat, j: nat)
    requires i < j < |ss|
    requires forall k :: 0 <= k < j ==> ss[k].startTime != ss[j].startTime
    ensures var order := FirstStarts(ss);
      0 <= IndexOf(order, ss[i].startTime) < IndexOf(order, ss[j].startTime)
  {
    ListedBefore(ss, i, j);
    NotListedBefore(ss, j);
    ListedNext(ss, j);
    IndexBeforeNext(FirstStarts(ss), FirstStarts(ss[..j]), ss[i].startTime, ss[j].startTime);
  }

  /** `m` holds, for every start time among `ss`, the sessions starting then. */
  predicate GroupedBy(m: map<int, seq<Session>>, ss: seq<Session>)
  {
    m.Keys == StartTimes(ss) && forall t :: t in m ==> m[t] == Bucket(ss, t)
  }

  /** Pushing one more session onto the bucket of its start time, created empty when missing. */
  lemma GroupStep(m: map<int, seq<Session>>, ss: seq<Session>, s: Session)
    requires GroupedBy(m, ss)
    ensures var t := s.startTime;
      var m1 := if t in m then m else m[t := []];
      GroupedBy(m1[t := m1[t] + [s]], ss + [s])
  {
    BucketSnoc(ss, s);
    StartTimesSnoc(ss, s);
    if s.startTime !in m {
      EmptyBucket(ss, s.startTime);
    }
  }

  /** A session opens a new section exactly when its start time has no bucket yet. */
  lemma OrderStep(m: map<int, seq<Session>>, ss: seq<Session>, s: Session)
    requires GroupedBy(m, ss)
    ensures FirstStarts(ss + [s])
      == if s.startTime in m then FirstStarts(ss) else FirstStarts(ss) + [s.startTime]
  {
    FirstStartsCovers(ss);
    FirstStartsSnoc(ss, s);
  }

  /** The grouping loop of `convertToTimeMap`. */
  method GroupByStart(sessions: map<Id, Session>, keys: seq<Id>) returns (g: Grouping)
    ensures var m := FirstMissing(keys, sessions);
      && (m >= 0 ==> g == NoSession(keys[m]))
      && (m < 0 ==>
            var ss := SessionsOf(sessions, keys);
            g.Grouped? && GroupedBy(g.buckets, ss) && g.order == FirstStarts(ss))
  {
    var timeMap: map<int, seq<Session>> := map[];
    var order: seq<int> := [];
    assert GroupedBy(timeMap, SessionsOf(sessions, keys[..0]));
    for i := 0 to |keys|
      invariant forall k :: 0 <= k < i ==> keys[k] in sessions
      invariant GroupedBy(timeMap, SessionsOf(sessions, keys[..i]))
      invariant order == FirstStarts(SessionsOf(sessions, keys[..i]))
    {
      var key := keys[i];
      if key !in sessions {
        MissingAt(keys, sessions, i);
        return NoSession(key);
      }
      var session := sessions[key];
      SessionsSnoc(sessions, keys, i);
      GroupStep(timeMap, SessionsOf(sessions, keys[..i]), session);
      OrderStep(timeMap, SessionsOf(sessions, keys[..i]), session);
      if session.startTime !in timeMap {
        timeMap := timeMap[session.startTime := []];
        order := order + [session.startTime];
      }
      timeMap := timeMap[session.startTime := timeMap[session.startTime] + [session]];
    }
    assert keys[..|keys|] == keys;
    return Grouped(order, timeMap);
  }

  lemma HasElement(s: set<int>)
    requires s != {}
    ensures exists x :: x in s
  {
    if forall x :: x !in s {
      assert false;
    }
  }

  /** The `header` pass of `convertToTimeMap`: pop the last session of every bucket. */
  method PopEach(timeMap: map<int, seq<Session>>) returns (r: map<int, seq<Session>>)
    ensures r.Keys == timeMap.Keys
    ensures forall t :: t in r ==> r[t] == DropLast(timeMap[t])
  {
    r := timeMap;
    var pending := timeMap.Keys;
    while pending != {}
      invariant pending <= timeMap.Keys && r.Keys == timeMap.Keys
      invariant forall t :: t in r ==> r[t] == if t in pending then timeMap[t] else DropLast(timeMap[t])
      decreases pending
    {
      HasElement(pending);
      var t :| t in pending;
      var bucket := r[t];
      if bucket != [] {
        bucket := bucket[..|bucket| - 1];
      }
      r := r[t := bucket];
      pending := pending - {t};
    }
  }

  method ConvertToTimeMap(sessions: map<Id, Session>, scheduleArray: MaybeArray<Id>, header: bool)
    returns (g: Grouping)
    ensures scheduleArray.NotArray? ==> g == Grouped([], map[])
    ensures scheduleArray.Array? ==>
      var keys := scheduleArray.items;
      var m := FirstMissing(keys, sessions);
      && (m >= 0 ==> g == NoSession(keys[m]))
      && (m < 0 ==>
            var ss := SessionsOf(sessions, keys);
            && g.Grouped?
            && g.order == FirstStarts(ss)
            && g.buckets.Keys == StartTimes(ss)
            && forall t :: t in g.buckets ==>
                 g.buckets[t] == if header then DropLast(Bucket(ss, t)) else Bucket(ss, t))
  {
    if scheduleArray.NotArray? {
      return Grouped([], map[]);
    }
    g := GroupByStart(sessions, scheduleArray.items);
    if g.Grouped? && header {
      var popped := PopEach(g.buckets);
      g := Grouped(g.order, popped);
    }
  }

  /** No two equal entries. */
  predicate Distinct(times: seq<int>)
  {
    forall i, j :: 0 <= i < j < |times| ==> times[i] != times[j]
  }

  /** The summed sizes of the buckets of `times`. */
  function TotalSize(ss: seq<Session>, times: seq<int>, header: bool): int
  {
    if times == [] then 0
    else
      var b := Bucket(ss, times[0]);
      |if header then DropLast(b) else b| + TotalSize(ss, times[1..], header)
  }

  lemma {:induction false} TotalSizeSnoc(ss: seq<Session>, s: Session, times: seq<int>)
    requires Distinct(times)
    ensures TotalSize(ss + [s], times, false) == TotalSize(ss, times, false) + (if s.startTime in times then 1 else 0)
  {
    if times != [] {
      FilterSnoc(ss, s, StartsAt(times[0]));
      TotalSizeSnoc(ss, s, times[1..]);
      assert s.startTime in times <==> s.startTime == times[0] || s.startTime in times[1..];
    }
  }

  lemma {:induction false} TotalSizeCovers(ss: seq<Session>, times: seq<int>)
    requires Distinct(times)
    requires StartTimes(ss) <= set t | t in times
    ensures TotalSize(ss, times, false) == |ss|
    decreases |ss|
  {
    if ss == [] {
      EmptyBuckets(times);
    } else {
      var init := ss[..|ss| - 1];
      var last := ss[|ss| - 1];
      assert StartTimes(init) <= StartTimes(ss) by {
        forall t | t in StartTimes(init) ensures t in StartTimes(ss) {
          var k :| 0 <= k < |init| && init[k].startTime == t;
          assert ss[k] == init[k];
        }
      }
      TotalSizeCovers(init, times);
      assert init + [last] == ss;
      assert last.startTime in StartTimes(ss);
      TotalSizeSnoc(init, last, times);
    }
  }

  lemma {:induction false} EmptyBuckets(times: seq<int>)
    ensures TotalSize([], times, false) == 0
  {
    if times != [] {
      EmptyBuckets(times[1..]);
    }
  }

  lemma {:induction false} HeaderDropsOnePerBucket(ss: seq<Session>, times: seq<int>)
    requires forall i :: 0 <= i < |times| ==> times[i] in StartTimes(ss)
    ensures TotalSize(ss, times, true) == TotalSize(ss, times, false) - |times|
  {
    if times != [] {
      HeaderDropsOnePerBucket(ss, times[1..]);
      var t := times[0];
      var k :| 0 <= k < |ss| && ss[k].startTime == t;
      FilterMembership(ss, StartsAt(t), ss[k]);
    }
  }

  /** The buckets split the input: every session sits in the bucket of its start
      time, each bucket keeps input order, the bucket sizes sum to the input
      length, and with `header` each bucket is one shorter. */
  lemma TimeMapPartitions(ss: seq<Session>, times: seq<int>)
    requires Distinct(times)
    requires (set t | t in times) == StartTimes(ss)
    ensures forall i :: 0 <= i < |ss| ==> ss[i] in Bucket(ss, ss[i].startTime)
    ensures forall t :: IsSubsequence(Bucket(ss, t), ss)
    ensures TotalSize(ss, times, false) == |ss|
    ensures TotalSize(ss, times, true) == |ss| - |times|
  {
    forall i | 0 <= i < |ss| ensures ss[i] in Bucket(ss, ss[i].startTime) {
      FilterMembership(ss, StartsAt(ss[i].startTime), ss[i]);
    }
    forall t ensures IsSubsequence(Bucket(ss, t), ss) {
      FilterIsSubsequence(ss, StartsAt(t));
    }
    TotalSizeCovers(ss, times);
    forall i | 0 <= i < |times| ensures times[i] in StartTimes(ss) {
      assert times[i] in set t | t in times;
    }
    HeaderDropsOnePerBucket(ss, times);
  }
}
