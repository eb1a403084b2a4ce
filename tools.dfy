/**
 * The tool-call dispatcher of the assistant view
 * (src/components/AssistantView.js:38-56): a function call named by the
 * model is mapped to one store operation, and the operation's confirmation
 * text is the call's result.
 */
module Tools {
  import opened Wrappers
  import opened Jobs

  /**
   * A function call requested by the model. The named arguments are carried
   * in a Job record (company, role, source, dateApplied, timeApplied,
   * status); an argument the call does not carry is the empty string.
   */
  datatype FunctionCall = FunctionCall(id: string, name: string, args: Job)

  const SaveTool := "save_job_application"
  const ListTool := "list_job_applications"
  const UpdateTool := "update_job_status"
  const DeleteTool := "delete_job_application"
  const SyncTool := "sync_gmail_emails"

  /** The result text of one call and the list it leaves. */
  datatype Outcome = Outcome(result: string, apps: seq<Job>)

  function NotFoundText(company: string): string
  {
    "Could not find a job for " + company + "."
  }

  /** handleToolCall on the list apps; freshId is the id a new record would get. */
  function ToolOutcome(apps: seq<Job>, fc: FunctionCall, freshId: string): Outcome
  {
    if fc.name == SaveTool then
      Outcome(SaveMessage(apps, fc.args), SaveApps(apps, fc.args, freshId))
    else if fc.name == ListTool then
      Outcome(ListText(apps), apps)
    else if fc.name == UpdateTool then
      Outcome(UpdateStatusMessage(apps, fc.args.company, fc.args.status),
              UpdateStatusApps(apps, fc.args.company, fc.args.status))
    else if fc.name == DeleteTool then
      match FindByCompany(apps, fc.args.company)
      case Some(job) => Outcome(DeleteMessage(apps, job.id), DeleteApps(apps, job.id))
      case None => Outcome(NotFoundText(fc.args.company), apps)
    else Outcome("", apps)
  }

  /** handleToolCall against the store. */
  method HandleToolCall(store: JobStore, fc: FunctionCall, freshId: string) returns (result: string)
    requires store.Valid() && FreshId(store.apps, freshId)
    modifies store
    ensures store.Valid()
    ensures Outcome(result, store.apps) == ToolOutcome(old(store.apps), fc, freshId)
  {
    result := "";
    if fc.name == SaveTool {
      result := store.Save(fc.args, freshId);
    } else if fc.name == ListTool {
      result := ListText(store.apps);
    } else if fc.name == UpdateTool {
      result := store.UpdateStatus(fc.args.company, fc.args.status);
    } else if fc.name == DeleteTool {
      var job := FindByCompany(store.apps, fc.args.company);
      if job.Some? {
        result := store.Delete(job.value.id);
      } else {
        result := NotFoundText(fc.args.company);
      }
    }
  }

  // ------------------------------------------------------------ properties

  /**
   * Any name other than the four store tools, the declared
   * sync_gmail_emails among them, yields the empty result and leaves the
   * list as it was.
   */
  lemma OtherToolsDoNothing(apps: seq<Job>, fc: FunctionCall, freshId: string)
    requires fc.name !in {SaveTool, ListTool, UpdateTool, DeleteTool}
    ensures ToolOutcome(apps, fc, freshId) == Outcome("", apps)
  {
  }

  lemma SyncToolIgnored(apps: seq<Job>, fc: FunctionCall, freshId: string)
    requires fc.name == SyncTool
    ensures ToolOutcome(apps, fc, freshId) == Outcome("", apps)
  {
    OtherToolsDoNothing(apps, fc, freshId);
  }

  /** Listing reads the list and never changes it. */
  lemma ListToolReadsOnly(apps: seq<Job>, fc: FunctionCall, freshId: string)
    requires fc.name == ListTool
    ensures ToolOutcome(apps, fc, freshId).apps == apps
    ensures |apps| == 0 ==> ToolOutcome(apps, fc, freshId).result == NoJobsText
  {
  }

  /**
   * delete_job_application removes the first record whose company contains
   * the argument, that record only, and reports its company.
   */
  lemma DeleteToolRemovesFirstMatch(apps: seq<Job>, fc: FunctionCall, freshId: string, k: nat)
    requires WellFormed(apps) && fc.name == DeleteTool
    requires CompanyIndex(apps, fc.args.company) == Some(k)
    ensures k < |apps|
    ensures ToolOutcome(apps, fc, freshId)
      == Outcome("Removed the application for " + apps[k].company + " from your list.",
                 apps[..k] + apps[k + 1..])
  {
    DeleteExisting(apps, k);
    DeleteExistingMessage(apps, k);
  }

  /** With no company match, delete_job_application names the company and changes nothing. */
  lemma DeleteToolMiss(apps: seq<Job>, fc: FunctionCall, freshId: string)
    requires fc.name == DeleteTool
    requires forall i :: 0 <= i < |apps| ==> !CompanyMatches(fc.args.company, apps[i])
    ensures ToolOutcome(apps, fc, freshId) == Outcome(NotFoundText(fc.args.company), apps)
  {
  }

  /** A call can add at most the one fresh id; every other id it leaves comes from the list. */
  lemma ToolIds(apps: seq<Job>, fc: FunctionCall, freshId: string)
    ensures Ids(ToolOutcome(apps, fc, freshId).apps) <= Ids(apps) + {freshId}
  {
    if fc.name == SaveTool {
      SaveIds(apps, fc.args, freshId);
    } else if fc.name == UpdateTool {
      UpdateIds(apps, fc.args.company, fc.args.status);
    }
  }

  /** Ids after a save: the list's own, plus the fresh one at most. */
  lemma SaveIds(apps: seq<Job>, data: Job, freshId: string)
    ensures Ids(SaveApps(apps, data, freshId)) <= Ids(apps) + {freshId}
  {
    var r := SaveApps(apps, data, freshId);
    forall i | 0 <= i < |r|
      ensures r[i].id in Ids(apps) + {freshId}
    {
      if HasId(data) || DuplicateIndex(apps, data).Some? {
        IdsMember(apps, i);
      } else if i > 0 {
        IdsMember(apps, i - 1);
      }
    }
    IdsWithin(r, Ids(apps) + {freshId});
  }

  /** A status update renames no record. */
  lemma UpdateIds(apps: seq<Job>, companyName: string, newStatus: string)
    ensures Ids(UpdateStatusApps(apps, companyName, newStatus)) <= Ids(apps)
  {
    var r := UpdateStatusApps(apps, companyName, newStatus);
    forall i | 0 <= i < |r|
      ensures r[i].id in Ids(apps)
    {
      IdsMember(apps, i);
    }
    IdsWithin(r, Ids(apps));
  }

  lemma IdsWithin(r: seq<Job>, s: set<string>)
    requires forall i :: 0 <= i < |r| ==> r[i].id in s
    ensures Ids(r) <= s
  {
    forall x | x in Ids(r)
      ensures x in s
    {
      var j :| j in r && j.id == x;
      var i :| 0 <= i < |r| && r[i] == j;
    }
  }


  /** Every call keeps the ids present and distinct. */
  lemma ToolKeepsWellFormed(apps: seq<Job>, fc: FunctionCall, freshId: string)
    requires WellFormed(apps) && FreshId(apps, freshId)
    ensures WellFormed(ToolOutcome(apps, fc, freshId).apps)
  {
    if fc.name == SaveTool {
      SaveKeepsWellFormed(apps, fc.args, freshId);
    } else if fc.name == UpdateTool {
      UpdateStatusKeepsWellFormed(apps, fc.args.company, fc.args.status);
    } else if fc.name == DeleteTool {
      match FindByCompany(apps, fc.args.company)
      case Some(job) => DeleteKeepsWellFormed(apps, job.id);
      case None =>
    }
  }
}
