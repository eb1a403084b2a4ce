/**
 * The job-application store (src/hooks/useJobApplications.js): an ordered
 * list of application records, newest first, with save (update by id,
 * merge a duplicate, or prepend), delete by id, status update by company,
 * a numbered listing and lookup by company.
 *
 * Each operation is modelled as seeing the result of the previous one; the
 * store as written lets some results lag behind (see batching.dfy).
 */
module Jobs {
  import opened Wrappers
  import opened Text

  /** One tracked application; the empty string stands for a missing field. */
  datatype Job = Job(
    id: string,
    company: string,
    role: string,
    source: string,
    dateApplied: string,
    timeApplied: string,
    status: string)

  const NoJobsText := "You haven't added any job applications yet."
  const DeleteMissText := "I couldn't find that job application in your tracker."

  // ------------------------------------------------------------ predicates

  /** `if (jobData.id)`: an id counts only when it is a non-empty string. */
  predicate HasId(j: Job)
  {
    j.id != ""
  }

  /**
   * The duplicate key of an id-less save: company and role compared without
   * case, date, time and status compared exactly. The source field is not
   * part of the key (the source tests timeApplied twice instead).
   */
  predicate SameApplication(existing: Job, data: Job)
  {
    && Lower(existing.company) == Lower(data.company)
    && Lower(existing.role) == Lower(data.role)
    && existing.dateApplied == data.dateApplied
    && existing.timeApplied == data.timeApplied
    && existing.status == data.status
    && existing.timeApplied == data.timeApplied
  }

  /** The company of j contains the query, ignoring case. */
  predicate CompanyMatches(query: string, j: Job)
  {
    Contains(Lower(j.company), Lower(query))
  }

  function Ids(apps: seq<Job>): set<string>
  {
    set j | j in apps :: j.id
  }

  /** The store's invariant: every record has an id, and no two share one. */
  predicate WellFormed(apps: seq<Job>)
  {
    && (forall i :: 0 <= i < |apps| ==> HasId(apps[i]))
    && (forall i, k :: 0 <= i < k < |apps| ==> apps[i].id != apps[k].id)
  }

  /** What `Date.now() + random suffix` is assumed to give: an unused id. */
  predicate FreshId(apps: seq<Job>, id: string)
  {
    id != "" && id !in Ids(apps)
  }

  // ------------------------------------------------------------- searches

  function DuplicateIndex(apps: seq<Job>, data: Job): Option<nat>
  {
    FindIndex(apps, (j: Job) => SameApplication(j, data))
  }

  function CompanyIndex(apps: seq<Job>, query: string): Option<nat>
  {
    FindIndex(apps, (j: Job) => CompanyMatches(query, j))
  }

  function IdIndex(apps: seq<Job>, id: string): Option<nat>
  {
    FindIndex(apps, (j: Job) => j.id == id)
  }

  /** findJobByCompany: the first record whose company contains the query. */
  function FindByCompany(apps: seq<Job>, query: string): (r: Option<Job>)
    ensures r.Some? ==> r.value in apps && CompanyMatches(query, r.value)
    ensures r.None? <==> forall k :: 0 <= k < |apps| ==> !CompanyMatches(query, apps[k])
  {
    match CompanyIndex(apps, query)
    case None => None
    case Some(k) => Some(apps[k])
  }

  // -------------------------------------------------------- save (specs)

  /** The records after `currentApps.map(j => j.id === jobData.id ? jobData : j)`. */
  function ReplaceById(apps: seq<Job>, data: Job): (r: seq<Job>)
    ensures |r| == |apps|
  {
    seq(|apps|, i requires 0 <= i < |apps| => if apps[i].id == data.id then data else apps[i])
  }

  /** `{ ...existingJob, ...jobData, id: existingJob.id }` for a record carrying every field. */
  function Merge(existing: Job, data: Job): Job
  {
    data.(id := existing.id)
  }

  /** The list after saveJobApplication(data), the new record getting freshId. */
  function SaveApps(apps: seq<Job>, data: Job, freshId: string): seq<Job>
  {
    if HasId(data) then ReplaceById(apps, data)
    else match DuplicateIndex(apps, data)
      case Some(k) => apps[k := Merge(apps[k], data)]
      case None => [data.(id := freshId)] + apps
  }

  /** The confirmation saveJobApplication returns. */
  function SaveMessage(apps: seq<Job>, data: Job): string
  {
    if HasId(data) then "Job application for " + data.company + " updated successfully."
    else if DuplicateIndex(apps, data).Some? then
      "Updated existing application for " + data.role + " at " + data.company + "."
    else "Successfully added " + data.role + " at " + data.company + " to your tracker."
  }

  // --------------------------------------------- delete and status (specs)

  /** The list after deleteJobApplication(id): `prev.filter(j => j.id !== id)`. */
  function DeleteApps(apps: seq<Job>, id: string): (r: seq<Job>)
    ensures forall j :: j in r ==> j in apps && j.id != id
    ensures |r| <= |apps|
  {
    if apps == [] then []
    else (if apps[0].id == id then [] else [apps[0]]) + DeleteApps(apps[1..], id)
  }

  function DeleteMessage(apps: seq<Job>, id: string): string
  {
    match IdIndex(apps, id)
    case None => DeleteMissText
    case Some(k) => "Removed the application for " + apps[k].company + " from your list."
  }

  /** The list after updateJobStatus(companyName, newStatus). */
  function UpdateStatusApps(apps: seq<Job>, companyName: string, newStatus: string): seq<Job>
  {
    match CompanyIndex(apps, companyName)
    case None => apps
    case Some(k) =>
      var target := apps[k].id;
      seq(|apps|, i requires 0 <= i < |apps| =>
        if apps[i].id == target then apps[i].(status := newStatus) else apps[i])
  }

  function UpdateStatusMessage(apps: seq<Job>, companyName: string, newStatus: string): string
  {
    match CompanyIndex(apps, companyName)
    case None => "I couldn't find an application for \"" + companyName + "\" in your tracker."
    case Some(k) => "I've updated your status for " + apps[k].company + " to " + newStatus + "."
  }

  // --------------------------------------------------------------- listing

  function JobLine(n: nat, j: Job): string
  {
    NatToString(n) + ". " + j.company + " - " + j.role + " (" + j.status + ")"
  }

  function JobLines(apps: seq<Job>): (r: seq<string>)
    ensures |r| == |apps|
  {
    seq(|apps|, i requires 0 <= i < |apps| => JobLine(i + 1, apps[i]))
  }

  function ListHeader(n: nat): string
  {
    "You have " + NatToString(n) + " applications in your tracker:\n"
  }

  /** listJobs: a fixed message for no records, else a header and one numbered line per record. */
  function ListText(apps: seq<Job>): string
  {
    if |apps| == 0 then NoJobsText else ListHeader(|apps|) + Join(JobLines(apps), "\n")
  }

  // ------------------------------------------------------------ the store

  /** The store: `applicationsRef.current`, which every operation reads and replaces. */
  class JobStore {
    var apps: seq<Job>

    ghost predicate Valid()
      reads this
    {
      WellFormed(apps)
    }

    constructor ()
      ensures Valid() && apps == []
    {
      apps := [];
    }

    /** saveJobApplication(jobData); freshId stands for the generated id. */
    method Save(data: Job, freshId: string) returns (msg: string)
      requires Valid() && FreshId(apps, freshId)
      modifies this
      ensures Valid()
      ensures apps == SaveApps(old(apps), data, freshId)
      ensures msg == SaveMessage(old(apps), data)
    {
      SaveKeepsWellFormed(apps, data, freshId);
      msg := SaveMessage(apps, data);
      if HasId(data) {
        apps := ReplaceById(apps, data);
        return;
      }
      var existing := DuplicateIndex(apps, data);
      if existing.Some? {
        var k := existing.value;
        apps := apps[k := Merge(apps[k], data)];
      } else {
        apps := [data.(id := freshId)] + apps;
      }
    }

    /** deleteJobApplication(id). */
    method Delete(id: string) returns (msg: string)
      requires Valid()
      modifies this
      ensures Valid()
      ensures apps == DeleteApps(old(apps), id)
      ensures msg == DeleteMessage(old(apps), id)
    {
      DeleteKeepsWellFormed(apps, id);
      msg := DeleteMessage(apps, id);
      apps := DeleteApps(apps, id);
    }

    /** updateJobStatus(companyName, newStatus). */
    method UpdateStatus(companyName: string, newStatus: string) returns (msg: string)
      requires Valid()
      modifies this
      ensures Valid()
      ensures apps == UpdateStatusApps(old(apps), companyName, newStatus)
      ensures msg == UpdateStatusMessage(old(apps), companyName, newStatus)
    {
      UpdateStatusKeepsWellFormed(apps, companyName, newStatus);
      msg := UpdateStatusMessage(apps, companyName, newStatus);
      apps := UpdateStatusApps(apps, companyName, newStatus);
    }

    /** clearAllJobs. */
    method Clear()
      modifies this
      ensures Valid() && apps == []
    {
      apps := [];
    }
  }

  // ---------------------------------------------------------- invariants

  lemma SameApplicationReflexive(data: Job, id: string)
    ensures SameApplication(data.(id := id), data)
  {
  }

  lemma IdsMember(apps: seq<Job>, i: nat)
    requires i < |apps|
    ensures apps[i].id in Ids(apps)
  {
    assert apps[i] in apps;
  }

  /** Every save keeps ids present and distinct. */
  lemma SaveKeepsWellFormed(apps: seq<Job>, data: Job, freshId: string)
    requires WellFormed(apps) && FreshId(apps, freshId)
    ensures WellFormed(SaveApps(apps, data, freshId))
  {
    var r := SaveApps(apps, data, freshId);
    if !HasId(data) && DuplicateIndex(apps, data).None? {
      forall k | 0 < k < |r|
        ensures r[0].id != r[k].id
      {
        IdsMember(apps, k - 1);
      }
    }
  }

  lemma {:induction false} DeleteKeepsWellFormed(apps: seq<Job>, id: string)
    requires WellFormed(apps)
    ensures WellFormed(DeleteApps(apps, id))
    decreases |apps|
  {
    if apps != [] {
      var tail := DeleteApps(apps[1..], id);
      DeleteKeepsWellFormed(apps[1..], id);
      if apps[0].id != id {
        var r := DeleteApps(apps, id);
        assert r == [apps[0]] + tail;
        forall k | 0 < k < |r|
          ensures r[0].id != r[k].id
        {
          assert r[k] in tail;
          var m :| 0 <= m < |apps[1..]| && apps[1..][m] == r[k];
          assert apps[0].id != apps[m + 1].id;
        }
      }
    }
  }

  lemma UpdateStatusKeepsWellFormed(apps: seq<Job>, companyName: string, newStatus: string)
    requires WellFormed(apps)
    ensures WellFormed(UpdateStatusApps(apps, companyName, newStatus))
  {
  }

  // ------------------------------------------------------ save properties

  /**
   * A save carrying an id replaces every record with that id by the given
   * data and leaves the others; nothing is added, even when no record has
   * the id.
   */
  lemma SaveWithIdReplaces(apps: seq<Job>, data: Job, freshId: string)
    requires HasId(data)
    ensures var r := SaveApps(apps, data, freshId);
      && |r| == |apps|
      && (forall i :: 0 <= i < |apps| && apps[i].id == data.id ==> r[i] == data)
      && (forall i :: 0 <= i < |apps| && apps[i].id != data.id ==> r[i] == apps[i])
      && ((forall i :: 0 <= i < |apps| ==> apps[i].id != data.id) ==> r == apps)
  {
  }

  /**
   * An id-less save that matches an existing record merges the data into the
   * first match, which keeps its id; the length is unchanged.
   */
  lemma SaveMergesFirstDuplicate(apps: seq<Job>, data: Job, freshId: string, k: nat)
    requires !HasId(data)
    requires k < |apps| && SameApplication(apps[k], data)
    requires forall m :: 0 <= m < k ==> !SameApplication(apps[m], data)
    ensures SaveApps(apps, data, freshId) == apps[k := data.(id := apps[k].id)]
    ensures SaveMessage(apps, data) == "Updated existing application for " + data.role + " at " + data.company + "."
  {
    var p := (j: Job) => SameApplication(j, data);
    assert p(apps[k]);
    assert DuplicateIndex(apps, data).Some?;
  }

  /**
   * An id-less save with no match prepends the data under the fresh id; the
   * old records follow in their order.
   */
  lemma SavePrependsNew(apps: seq<Job>, data: Job, freshId: string)
    requires !HasId(data)
    requires forall m :: 0 <= m < |apps| ==> !SameApplication(apps[m], data)
    ensures var r := SaveApps(apps, data, freshId);
      |r| == |apps| + 1 && r[0] == data.(id := freshId) && r[1..] == apps
  {
  }

  /**
   * Saving the same record twice is the same as saving it once: the second
   * save of an id-less record takes the duplicate branch and finds the record
   * the first save left.
   */
  lemma SaveIdempotent(apps: seq<Job>, data: Job, freshId: string, freshId': string)
    ensures SaveApps(SaveApps(apps, data, freshId), data, freshId') == SaveApps(apps, data, freshId)
  {
    var once := SaveApps(apps, data, freshId);
    if HasId(data) {
      assert ReplaceById(once, data) == once;
    } else {
      var p := (j: Job) => SameApplication(j, data);
      match DuplicateIndex(apps, data)
      case Some(k) =>
        assert p(once[k]);
        assert forall m :: 0 <= m < k ==> once[m] == apps[m];
        assert DuplicateIndex(once, data) == Some(k);
      case None =>
        assert p(once[0]);
        assert DuplicateIndex(once, data) == Some(0);
    }
  }

  /** Saving an id-less record twice adds at most one record, and exactly one when it was new. */
  lemma SaveTwiceAddsAtMostOne(apps: seq<Job>, data: Job, freshId: string, freshId': string)
    requires !HasId(data)
    ensures var twice := SaveApps(SaveApps(apps, data, freshId), data, freshId');
      |twice| == if DuplicateIndex(apps, data).None? then |apps| + 1 else |apps|
  {
    SaveIdempotent(apps, data, freshId, freshId');
  }

  // ---------------------------------------------- delete/status properties

  /** Deleting the id of a stored record removes that record and only it. */
  lemma DeleteExisting(apps: seq<Job>, k: nat)
    requires WellFormed(apps) && k < |apps|
    ensures DeleteApps(apps, apps[k].id) == apps[..k] + apps[k + 1..]
  {
    DeleteUnique(apps, k, apps[k].id);
  }

  lemma {:induction false} DeleteUnique(apps: seq<Job>, k: nat, id: string)
    requires k < |apps| && apps[k].id == id
    requires forall i :: 0 <= i < |apps| && i != k ==> apps[i].id != id
    ensures DeleteApps(apps, id) == apps[..k] + apps[k + 1..]
    decreases k
  {
    var rest := apps[1..];
    assert forall i :: 0 <= i < |rest| ==> rest[i] == apps[i + 1];
    if k == 0 {
      DeleteMissing(rest, id);
      assert DeleteApps(apps, id) == [] + DeleteApps(rest, id);
    } else {
      DeleteUnique(rest, k - 1, id);
      assert DeleteApps(apps, id) == [apps[0]] + DeleteApps(rest, id);
      DropFromTail(apps, k);
    }
  }

  lemma DropFromTail<T>(a: seq<T>, k: nat)
    requires 0 < k < |a|
    ensures [a[0]] + (a[1..][..k - 1] + a[1..][k..]) == a[..k] + a[k + 1..]
  {
    assert a[1..][..k - 1] == a[1..k] && a[1..][k..] == a[k + 1..];
    assert a[..k] == [a[0]] + a[1..k];
  }

  /** Deleting a stored id reports the removed record's company. */
  lemma DeleteExistingMessage(apps: seq<Job>, k: nat)
    requires WellFormed(apps) && k < |apps|
    ensures DeleteMessage(apps, apps[k].id) == "Removed the application for " + apps[k].company + " from your list."
  {
    var id := apps[k].id;
    var p := (j: Job) => j.id == id;
    assert p(apps[k]);
    assert IdIndex(apps, id) == Some(k);
  }

  /** Deleting an id no record has leaves the list and reports the miss. */
  lemma {:induction false} DeleteMissing(apps: seq<Job>, id: string)
    requires forall i :: 0 <= i < |apps| ==> apps[i].id != id
    ensures DeleteApps(apps, id) == apps
    ensures DeleteMessage(apps, id) == DeleteMissText
    decreases |apps|
  {
    if apps != [] {
      assert DeleteApps(apps, id) == [apps[0]] + DeleteApps(apps[1..], id);
      DeleteMissing(apps[1..], id);
      assert apps == [apps[0]] + apps[1..];
    }
  }

  /**
   * updateJobStatus changes only the status of the first record whose
   * company contains the query; with no such record the list is unchanged
   * and a "couldn't find" text is returned.
   */
  lemma UpdateStatusFirstMatch(apps: seq<Job>, companyName: string, newStatus: string)
    requires WellFormed(apps)
    ensures match CompanyIndex(apps, companyName)
      case None =>
        && UpdateStatusApps(apps, companyName, newStatus) == apps
        && UpdateStatusMessage(apps, companyName, newStatus)
           == "I couldn't find an application for \"" + companyName + "\" in your tracker."
      case Some(k) =>
        && CompanyMatches(companyName, apps[k])
        && (forall m :: 0 <= m < k ==> !CompanyMatches(companyName, apps[m]))
        && UpdateStatusApps(apps, companyName, newStatus) == apps[k := apps[k].(status := newStatus)]
  {
  }

  // ------------------------------------------------- listing and lookup

  predicate NoNewline(s: string)
  {
    forall i :: 0 <= i < |s| ==> s[i] != '\n'
  }

  /**
   * listJobs: a non-empty list is announced with its size, and job k appears
   * in the reply as its own numbered line "k+1. company - role (status)".
   */
  lemma ListShowsEveryJob(apps: seq<Job>, k: nat)
    requires k < |apps|
    ensures StartsWith(ListText(apps), ListHeader(|apps|))
    ensures Contains(ListText(apps), NatToString(k + 1) + ". " + apps[k].company + " - " + apps[k].role + " (" + apps[k].status + ")")
  {
    var header := ListHeader(|apps|);
    var body := Join(JobLines(apps), "\n");
    var line := JobLines(apps)[k];
    var j := JoinOccurrence(JobLines(apps), "\n", k);
    assert ListText(apps) == header + body;
    assert ListText(apps)[|header| + j..|header| + j + |line|] == body[j..j + |line|];
    ContainsAt(ListText(apps), line, |header| + j);
  }

  /**
   * A non-empty listing has one line per record under its header: when no
   * company, role or status contains a line break, the text has exactly as
   * many line breaks as records.
   */
  lemma ListHasOneLinePerJob(apps: seq<Job>)
    requires |apps| > 0
    requires forall j :: j in apps ==> NoNewline(j.company) && NoNewline(j.role) && NoNewline(j.status)
    ensures CountChar(ListText(apps), '\n') == |apps|
  {
    var lines := JobLines(apps);
    forall k, i | 0 <= k < |lines| && 0 <= i < |lines[k]|
      ensures lines[k][i] != '\n'
    {
      assert apps[k] in apps;
      var n := NatToString(k + 1);
      assert lines[k] == n + ". " + apps[k].company + " - " + apps[k].role + " (" + apps[k].status + ")";
    }
    JoinNewlines(lines);
    var head := ListHeader(|apps|);
    var n := NatToString(|apps|);
    assert head == "You have " + n + " applications in your tracker:" + "\n";
    CountCharAbsent("You have " + n + " applications in your tracker:", '\n');
    CountCharAppend("You have " + n + " applications in your tracker:", "\n", '\n');
    CountCharAppend(head, Join(lines, "\n"), '\n');
  }

  /** With no records, the listing is the fixed "haven't added" text. */
  lemma ListEmpty()
    ensures ListText([]) == NoJobsText
  {
  }

  /** An empty company query matches every record, so lookup returns the first. */
  lemma FindEmptyQuery(apps: seq<Job>)
    requires |apps| > 0
    ensures FindByCompany(apps, "") == Some(apps[0])
  {
    assert StartsWith(Lower(apps[0].company), Lower(""));
  }
}
