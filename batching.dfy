/**
 * How the store behaves AS WRITTEN inside one synchronous batch of calls
 * (the tool-call loops of src/App.js:149-158 and
 * src/components/AssistantView.js:126-135).
 *
 * saveJobApplication writes applicationsRef.current at once and queues the
 * whole new list with setApplications(list); deleteJobApplication and
 * updateJobStatus only queue an updater function (setApplications(prev =>
 * ...)) and leave applicationsRef.current as it was until the next render
 * copies the committed list back into it. React applies the queue in order
 * at that render, so a whole-list write queued after an updater discards
 * the updater's effect.
 */
module Batching {
  import opened Wrappers
  import opened Text
  import opened Jobs

  /** A queued setApplications call. */
  datatype Pending =
    | SetTo(apps: seq<Job>)
    | MapStatus(id: string, status: string)
    | FilterOut(id: string)

  /** The committed state, applicationsRef.current, and the updates queued since the last render. */
  datatype Hook = Hook(state: seq<Job>, ref: seq<Job>, queue: seq<Pending>)

  function ApplyPending(apps: seq<Job>, p: Pending): seq<Job>
  {
    match p
    case SetTo(a) => a
    case MapStatus(id, status) =>
      seq(|apps|, i requires 0 <= i < |apps| => if apps[i].id == id then apps[i].(status := status) else apps[i])
    case FilterOut(id) => DeleteApps(apps, id)
  }

  function ApplyAll(apps: seq<Job>, queue: seq<Pending>): seq<Job>
    decreases |queue|
  {
    if queue == [] then apps else ApplyAll(ApplyPending(apps, queue[0]), queue[1..])
  }

  /** The render that applies the queue, and the effect that copies the result into the ref. */
  function Render(h: Hook): (r: Hook)
    ensures r.queue == [] && r.ref == r.state
  {
    var s := ApplyAll(h.state, h.queue);
    Hook(s, s, [])
  }

  /** A settled hook: nothing queued, the ref equal to the committed list. */
  function Settled(apps: seq<Job>): Hook
  {
    Hook(apps, apps, [])
  }

  /** saveJobApplication as written: computes from the ref, writes the ref, queues the list. */
  function SaveAsWritten(h: Hook, data: Job, freshId: string): Hook
  {
    var next := SaveApps(h.ref, data, freshId);
    h.(ref := next, queue := h.queue + [SetTo(next)])
  }

  /** updateJobStatus as written: finds in the ref, queues an updater, leaves the ref. */
  function UpdateStatusAsWritten(h: Hook, companyName: string, newStatus: string): Hook
  {
    match CompanyIndex(h.ref, companyName)
    case None => h
    case Some(k) => h.(queue := h.queue + [MapStatus(h.ref[k].id, newStatus)])
  }

  /** deleteJobApplication as written: finds in the ref, queues an updater, leaves the ref. */
  function DeleteAsWritten(h: Hook, id: string): Hook
  {
    match IdIndex(h.ref, id)
    case None => h
    case Some(_) => h.(queue := h.queue + [FilterOut(id)])
  }

  const Acme := Job("1", "acme", "engineer", "LinkedIn", "2025-01-02", "09:00", "Applied")
  const Beta := Job("", "beta", "analyst", "Gmail", "2025-01-03", "10:00", "Applied")

  /**
   * The lost update: a sync that returns update_job_status(acme, Offer)
   * followed by save_job_application(beta) ends, once rendered, with acme
   * still "Applied"; run one after the other, the same calls leave it "Offer".
   */
  lemma LostStatusUpdate()
    ensures var h := Render(SaveAsWritten(UpdateStatusAsWritten(Settled([Acme]), "acme", "Offer"), Beta, "2"));
      h.state == [Beta.(id := "2"), Acme]
    ensures SaveApps(UpdateStatusApps([Acme], "acme", "Offer"), Beta, "2")
      == [Beta.(id := "2"), Acme.(status := "Offer")]
  {
    assert Lower("acme") == "acme";
    assert StartsWith(Lower(Acme.company), Lower("acme"));
    assert CompanyIndex([Acme], "acme") == Some(0);
    assert Lower("beta") == "beta";
    assert !SameApplication(Acme, Beta) by {
      assert Lower("acme")[0] != Lower("beta")[0];
    }
    assert !SameApplication(Acme.(status := "Offer"), Beta) by {
      assert Lower("acme")[0] != Lower("beta")[0];
    }
    var p := (j: Job) => SameApplication(j, Beta);
    assert forall m :: 0 <= m < |[Acme]| ==> !p([Acme][m]);
    assert DuplicateIndex([Acme], Beta) == None;
    assert forall m :: 0 <= m < |[Acme.(status := "Offer")]| ==> !p([Acme.(status := "Offer")][m]);
    assert DuplicateIndex([Acme.(status := "Offer")], Beta) == None;
    var h1 := UpdateStatusAsWritten(Settled([Acme]), "acme", "Offer");
    assert h1 == Hook([Acme], [Acme], [MapStatus("1", "Offer")]);
    var next := SaveApps([Acme], Beta, "2");
    assert next == [Beta.(id := "2"), Acme];
    var h2 := SaveAsWritten(h1, Beta, "2");
    assert h2.queue == [MapStatus("1", "Offer"), SetTo(next)];
    var q := h2.queue;
    assert q[1..] == [SetTo(next)];
    assert ApplyAll(next, []) == next;
    var mapped := ApplyPending([Acme], q[0]);
    assert ApplyAll(mapped, q[1..]) == ApplyAll(ApplyPending(mapped, q[1..][0]), q[1..][1..]);
    assert ApplyAll([Acme], q) == next;
    assert Render(h2).state == next;
  }

  /**
   * In the store as modelled (each call sees the previous result), a status
   * update survives any later id-less save: the updated record is still
   * there, with the new status.
   */
  lemma StatusSurvivesLaterSave(apps: seq<Job>, companyName: string, newStatus: string, data: Job, freshId: string)
    requires WellFormed(apps) && FreshId(apps, freshId) && !HasId(data)
    requires CompanyIndex(apps, companyName).Some?
    ensures var k := CompanyIndex(apps, companyName).value;
      var after := SaveApps(UpdateStatusApps(apps, companyName, newStatus), data, freshId);
      exists i :: 0 <= i < |after| && after[i].id == apps[k].id && after[i].status == newStatus
  {
    var k := CompanyIndex(apps, companyName).value;
    UpdateStatusFirstMatch(apps, companyName, newStatus);
    var updated := UpdateStatusApps(apps, companyName, newStatus);
    assert updated == apps[k := apps[k].(status := newStatus)];
    var after := SaveApps(updated, data, freshId);
    match DuplicateIndex(updated, data)
    case Some(m) =>
      assert after == updated[m := Merge(updated[m], data)];
      assert after[k].id == apps[k].id && after[k].status == newStatus;
    case None =>
      assert after == [data.(id := freshId)] + updated;
      assert after[k + 1].id == apps[k].id && after[k + 1].status == newStatus;
  }
}
