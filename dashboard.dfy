/**
 * The job dashboard's list logic (src/components/JobDashboard.js): the
 * search-and-filter predicate behind filteredApplications and the "remove
 * rejected" action.
 *
 * Dates are day numbers. `dayOf` stands for new Date(dateApplied) at
 * midnight: None for a date string that does not parse (an Invalid Date,
 * whose comparisons are all false). `today` is the current day, and
 * `monthAgo` the day setMonth(getMonth() - 1) gives, which the calendar
 * decides.
 */
module Dashboard {
  import opened Wrappers
  import opened Text
  import opened Jobs

  /** The filter options that keep exactly the records with that status. */
  const StatusOptions := ["Interviewing", "Assessment", "Offer", "Rejected", "Ghosted", "Applied"]

  /** The search: the lower-cased term inside the lower-cased company or role. */
  predicate MatchesSearch(job: Job, term: string)
  {
    Contains(Lower(job.company), Lower(term)) || Contains(Lower(job.role), Lower(term))
  }

  /** The day a record was applied on: None without a date or with one that does not parse. */
  function AppliedDay(job: Job, dayOf: string -> Option<int>): Option<int>
  {
    if job.dateApplied == "" then None else dayOf(job.dateApplied)
  }

  /** The switch over the filter option. */
  predicate MatchesFilter(job: Job, option: string, today: int, monthAgo: int, dayOf: string -> Option<int>)
  {
    var day := AppliedDay(job, dayOf);
    if option == "today" then day == Some(today)
    else if option == "week" then day.Some? && day.value >= today - 7
    else if option == "month" then day.Some? && day.value >= monthAgo
    else if option in StatusOptions then job.status == option
    else true
  }

  predicate Keep(job: Job, term: string, option: string, today: int, monthAgo: int, dayOf: string -> Option<int>)
  {
    MatchesSearch(job, term) && MatchesFilter(job, option, today, monthAgo, dayOf)
  }

  /** filteredApplications. */
  function Filtered(apps: seq<Job>, term: string, option: string, today: int, monthAgo: int,
                    dayOf: string -> Option<int>): (r: seq<Job>)
    ensures |r| <= |apps|
    decreases |apps|
  {
    if apps == [] then []
    else
      (if Keep(apps[0], term, option, today, monthAgo, dayOf) then [apps[0]] else [])
      + Filtered(apps[1..], term, option, today, monthAgo, dayOf)
  }

  /** a is b with some elements left out, the rest in order. */
  predicate IsSubsequence(a: seq<Job>, b: seq<Job>)
    decreases |b|
  {
    if b == [] then a == []
    else (a != [] && a[0] == b[0] && IsSubsequence(a[1..], b[1..])) || IsSubsequence(a, b[1..])
  }

  /** The result is a subsequence of the list, and holds a record exactly when the record is kept. */
  lemma {:induction false} FilteredExactly(apps: seq<Job>, term: string, option: string, today: int, monthAgo: int,
                                           dayOf: string -> Option<int>)
    ensures IsSubsequence(Filtered(apps, term, option, today, monthAgo, dayOf), apps)
    ensures forall j :: j in Filtered(apps, term, option, today, monthAgo, dayOf) <==>
      j in apps && Keep(j, term, option, today, monthAgo, dayOf)
    decreases |apps|
  {
    if apps != [] {
      var rest := Filtered(apps[1..], term, option, today, monthAgo, dayOf);
      FilteredExactly(apps[1..], term, option, today, monthAgo, dayOf);
      var r := Filtered(apps, term, option, today, monthAgo, dayOf);
      if Keep(apps[0], term, option, today, monthAgo, dayOf) {
        assert r == [apps[0]] + rest;
        assert r[0] == apps[0] && r[1..] == rest;
      } else {
        assert r == rest;
      }
      assert apps == [apps[0]] + apps[1..];
    }
  }

  /** An empty search term matches every record. */
  lemma EmptyTermMatchesAll(job: Job)
    ensures MatchesSearch(job, "")
  {
    assert Lower("") == "";
    assert StartsWith(Lower(job.company), "");
  }

  /** The search looks at company and role only, ignoring case. */
  lemma SearchIgnoresCase(job: Job, term: string)
    ensures MatchesSearch(job, term) == MatchesSearch(job, Lower(term))
    ensures MatchesSearch(job, term) ==
      MatchesSearch(job.(company := Lower(job.company), role := Lower(job.role), source := "", status := ""), term)
  {
    LowerIdempotent(term);
    LowerIdempotent(job.company);
    LowerIdempotent(job.role);
  }

  /** A status option keeps exactly the records with that status. */
  lemma StatusOptionExact(job: Job, option: string, today: int, monthAgo: int, dayOf: string -> Option<int>)
    requires option in StatusOptions
    ensures MatchesFilter(job, option, today, monthAgo, dayOf) <==> job.status == option
  {
  }

  /** 'all' and any option the switch does not name filter nothing. */
  lemma OtherOptionsKeepAll(job: Job, option: string, today: int, monthAgo: int, dayOf: string -> Option<int>)
    requires option !in StatusOptions && option != "today" && option != "week" && option != "month"
    ensures MatchesFilter(job, option, today, monthAgo, dayOf)
  {
  }

  /** With an empty term and no filter, the whole list is shown. */
  lemma {:induction false} NoFilterShowsAll(apps: seq<Job>, today: int, monthAgo: int, dayOf: string -> Option<int>)
    ensures Filtered(apps, "", "all", today, monthAgo, dayOf) == apps
    decreases |apps|
  {
    if apps != [] {
      EmptyTermMatchesAll(apps[0]);
      NoFilterShowsAll(apps[1..], today, monthAgo, dayOf);
      assert apps == [apps[0]] + apps[1..];
    }
  }

  /**
   * The date options drop records without a parseable date; 'today' keeps
   * the records of today, 'week' those of the last seven days and today,
   * 'month' those since monthAgo.
   */
  lemma DateOptions(job: Job, today: int, monthAgo: int, dayOf: string -> Option<int>)
    ensures AppliedDay(job, dayOf).None? ==>
      && !MatchesFilter(job, "today", today, monthAgo, dayOf)
      && !MatchesFilter(job, "week", today, monthAgo, dayOf)
      && !MatchesFilter(job, "month", today, monthAgo, dayOf)
    ensures AppliedDay(job, dayOf).Some? ==>
      var day := AppliedDay(job, dayOf).value;
      && (MatchesFilter(job, "today", today, monthAgo, dayOf) <==> day == today)
      && (MatchesFilter(job, "week", today, monthAgo, dayOf) <==> day >= today - 7)
      && (MatchesFilter(job, "month", today, monthAgo, dayOf) <==> day >= monthAgo)
    ensures job.dateApplied == "" ==> AppliedDay(job, dayOf).None?
  {
    assert "today" !in StatusOptions && "week" !in StatusOptions;
  }

  // ------------------------------------------------------- remove rejected

  /** applications.filter(job => job.status === 'Rejected'). */
  function Rejected(apps: seq<Job>): (r: seq<Job>)
    ensures forall j :: j in r <==> j in apps && j.status == "Rejected"
    decreases |apps|
  {
    if apps == [] then []
    else (if apps[0].status == "Rejected" then [apps[0]] else []) + Rejected(apps[1..])
  }

  /** The records that are not rejected, in order. */
  function NotRejected(apps: seq<Job>): (r: seq<Job>)
    ensures forall j :: j in r <==> j in apps && j.status != "Rejected"
    decreases |apps|
  {
    if apps == [] then []
    else (if apps[0].status == "Rejected" then [] else [apps[0]]) + NotRejected(apps[1..])
  }

  /** The records whose id is not in a set, in order. */
  function WithoutIds(apps: seq<Job>, ids: set<string>): seq<Job>
    decreases |apps|
  {
    if apps == [] then []
    else (if apps[0].id in ids then [] else [apps[0]]) + WithoutIds(apps[1..], ids)
  }

  function IdsOf(jobs: seq<Job>): (r: seq<string>)
    ensures |r| == |jobs| && forall i :: 0 <= i < |jobs| ==> r[i] == jobs[i].id
  {
    seq(|jobs|, i requires 0 <= i < |jobs| => jobs[i].id)
  }

  lemma IdsCons(x: Job, s: seq<Job>)
    ensures Ids([x] + s) == {x.id} + Ids(s)
  {
    assert forall j :: j in [x] + s <==> j == x || j in s;
  }

  lemma IdsSnoc(s: seq<Job>, x: Job)
    ensures Ids(s + [x]) == Ids(s) + {x.id}
  {
    assert forall j :: j in s + [x] <==> j in s || j == x;
  }

  /** Deleting one more id removes it on top of the ids already removed. */
  lemma {:induction false} DeleteFromWithout(apps: seq<Job>, ids: set<string>, id: string)
    ensures DeleteApps(WithoutIds(apps, ids), id) == WithoutIds(apps, ids + {id})
    decreases |apps|
  {
    if apps != [] {
      var w := WithoutIds(apps, ids);
      var wt := WithoutIds(apps[1..], ids);
      DeleteFromWithout(apps[1..], ids, id);
      if apps[0].id in ids {
        assert w == wt;
      } else {
        assert w == [apps[0]] + wt;
        assert w[0] == apps[0] && w[1..] == wt;
      }
    }
  }

  /** Adding an id that no record carries changes nothing. */
  lemma {:induction false} WithoutIdsIgnoresAbsent(apps: seq<Job>, ids: set<string>, id: string)
    requires id !in Ids(apps)
    ensures WithoutIds(apps, ids + {id}) == WithoutIds(apps, ids)
    decreases |apps|
  {
    if apps != [] {
      IdsCons(apps[0], apps[1..]);
      assert apps == [apps[0]] + apps[1..];
      WithoutIdsIgnoresAbsent(apps[1..], ids, id);
    }
  }

  /** The head of a well-formed list shares its id with no later record, and the tail is well-formed. */
  lemma HeadIdUnique(apps: seq<Job>)
    requires apps != [] && WellFormed(apps)
    ensures apps[0].id !in Ids(apps[1..]) && WellFormed(apps[1..])
  {
    forall j | j in apps[1..]
      ensures j.id != apps[0].id
    {
      var k :| 0 <= k < |apps[1..]| && apps[1..][k] == j;
      assert apps[k + 1] == j;
    }
    forall i, k | 0 <= i < k < |apps| - 1
      ensures apps[1..][i].id != apps[1..][k].id
    {
      assert apps[1..][i] == apps[i + 1] && apps[1..][k] == apps[k + 1];
    }
  }

  lemma RejectedIdsWithin(apps: seq<Job>)
    ensures Ids(Rejected(apps)) <= Ids(apps)
  {
  }

  /** In a list with distinct ids, removing the rejected records' ids leaves exactly the others. */
  lemma {:induction false} WithoutRejectedIds(apps: seq<Job>)
    requires WellFormed(apps)
    ensures WithoutIds(apps, Ids(Rejected(apps))) == NotRejected(apps)
    decreases |apps|
  {
    if apps != [] {
      var x, t := apps[0], apps[1..];
      var tailIds := Ids(Rejected(t));
      HeadIdUnique(apps);
      WithoutRejectedIds(t);
      RejectedIdsWithin(t);
      if x.status == "Rejected" {
        assert Rejected(apps) == [x] + Rejected(t);
        IdsCons(x, Rejected(t));
        assert tailIds + {x.id} == Ids(Rejected(apps));
        WithoutIdsIgnoresAbsent(t, tailIds, x.id);
      } else {
        assert Rejected(apps) == Rejected(t);
      }
    }
  }

  lemma {:induction false} WithoutNothing(apps: seq<Job>)
    ensures WithoutIds(apps, {}) == apps
    decreases |apps|
  {
    if apps != [] {
      WithoutNothing(apps[1..]);
      assert apps == [apps[0]] + apps[1..];
    }
  }

  lemma IdsOfPrefix(jobs: seq<Job>, i: nat)
    requires i < |jobs|
    ensures IdsOf(jobs[..i + 1]) == IdsOf(jobs[..i]) + [jobs[i].id]
  {
  }

  /** One more delete in the loop of RemoveRejected removes one more id. */
  lemma PrefixStep(apps: seq<Job>, jobs: seq<Job>, i: nat)
    requires i < |jobs|
    ensures DeleteApps(WithoutIds(apps, Ids(jobs[..i])), jobs[i].id) == WithoutIds(apps, Ids(jobs[..i + 1]))
  {
    DeleteFromWithout(apps, Ids(jobs[..i]), jobs[i].id);
    assert jobs[..i + 1] == jobs[..i] + [jobs[i]];
    IdsSnoc(jobs[..i], jobs[i]);
  }

  /**
   * handleRemoveRejected: when the user confirms, one delete per rejected
   * record, in list order, and none for any other record.
   */
  method RemoveRejected(store: JobStore, confirmed: bool) returns (deleted: seq<string>)
    requires store.Valid()
    modifies store
    ensures store.Valid()
    ensures !confirmed ==> deleted == [] && store.apps == old(store.apps)
    ensures confirmed ==> deleted == IdsOf(Rejected(old(store.apps)))
    ensures confirmed ==> store.apps == NotRejected(old(store.apps))
  {
    deleted := [];
    if !confirmed {
      return;
    }
    ghost var apps := store.apps;
    var rejectedJobs := Rejected(store.apps);
    WithoutNothing(apps);
    assert Ids(rejectedJobs[..0]) == {};
    for i := 0 to |rejectedJobs|
      invariant store.Valid()
      invariant deleted == IdsOf(rejectedJobs[..i])
      invariant store.apps == WithoutIds(apps, Ids(rejectedJobs[..i]))
    {
      var id := rejectedJobs[i].id;
      PrefixStep(apps, rejectedJobs, i);
      var _ := store.Delete(id);
      IdsOfPrefix(rejectedJobs, i);
      deleted := deleted + [id];
    }
    assert rejectedJobs[..|rejectedJobs|] == rejectedJobs;
    WithoutRejectedIds(apps);
  }
}
